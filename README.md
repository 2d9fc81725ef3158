# Clarke and Park transforms: a verified model

This project models the numeric core of an educational visualiser of the Clarke
and Park transforms used in three-phase electrical signal analysis. It has two
parts.

- **The transform engine** (`utils/math.ts`, module `Transforms`). It builds a
  balanced three-phase signal, applies the amplitude-invariant Clarke transform
  to get a stationary (alpha, beta) vector, and applies the Park rotation to get
  a rotating (d, q) vector. All three are pure functions over exact reals.
- **The per-frame simulation** (`App.tsx`, module `Simulation`). It holds a
  simulation state record (angle, speed, amplitude, play flag, projections
  flag), the timestamp of the previous frame, and three history buffers of 300
  samples each, newest first. A tick advances the angle and records one abc,
  one alpha-beta and one dq sample. Commands from the controls toggle play,
  reset, set speed, set amplitude and toggle projections.

`Types` holds the records of `types.ts`. `JsNumber` models JavaScript's `%`
operator. `Trigonometry` supplies cosine, sine, pi and the square root of three.

## Trigonometry as a parameter

Dafny has no trigonometry. The source's `Math.cos`, `Math.sin`, `Math.PI` and
`Math.sqrt(3)` are carried as one value `Trig(cos, sin, pi, sqrt3)`. The facts
the transforms depend on form the predicate `Trigonometry.Lawful`:

- pi > 0, sqrt3 > 0 and sqrt3 * sqrt3 = 3;
- sin² x + cos² x = 1;
- the angle-sum formulas for cos and sin;
- cos(2π/3) = -1/2 and sin(2π/3) = sqrt3/2;
- cos(π/2) = 0 and sin(π/2) = 1.

Every property that needs trigonometry requires `Lawful(t)`. The real functions
satisfy it. Two further facts are proved from these laws rather than assumed:
`AtZero` (cos 0 = 1, sin 0 = 0) and `Negation` (cos is even, sin is odd).

## Points where the code's behaviour is easy to mistake

The model follows the code in each case.

- **Angle wrap for negative speed.** A true (floored) modulo would keep the
  angle in [0, 2π) for every speed. The code uses JavaScript's truncating `%`
  (App.tsx:46), whose result keeps the sign of the dividend, so a negative
  speed drives the angle below 0. `Simulation.NegativeSpeedGivesNegativeAngle`
  exhibits a tick that yields -π/2. The range [0, 2π) is proved only for
  non-negative speed and elapsed time. For any speed, the angle is proved to
  stay within (-2π, 2π).
- **No rejection of non-finite input.** The speed and amplitude handlers
  (App.tsx:101-102) store whatever value they receive; NaN and infinities are
  not filtered out. The model takes every value as given.
- **The quarter-turn phases.** At angle π/2 and amplitude 1 the code computes
  b = cos(π/2 - 2π/3) = +√3/2 ≈ +0.866 and c = cos(π/2 + 2π/3) = -√3/2 ≈ -0.866,
  so the phases are (0, +0.866, -0.866), not (0, -0.866, +0.866). Only the
  code's signs give the Clarke vector (0, 1) at that angle.
  `Transforms.AtQuarterTurn` proves the code's values.

## Model

| member | source | states |
|---|---|---|
| `Transforms.Pi` | utils/math.ts:3 | definition: PI = Math.PI, taken from the Trig value |
| `Transforms.TwoPi` | utils/math.ts:4 | definition: TWO_PI = 2 * PI, the same expression as the source line |
| `Transforms.Sqrt3` | utils/math.ts:5 | definition: SQRT3 = Math.sqrt(3), taken from the Trig value, whose square is 3 under `Lawful` |
| `Transforms.ThreePhase` | utils/math.ts:8-14 | definition: the same expressions as the source lines, with the shift (2 * PI) / 3 written as `Trigonometry.ThirdTurn`; its properties are the lemmas below |
| `Transforms.Clarke` | utils/math.ts:20-24 | definition: the same expressions for alpha and beta as the source lines; its properties are the Clarke lemmas below |
| `Transforms.Park` | utils/math.ts:29-33 | definition: the same expressions for d and q as the source lines; its properties are the Park lemmas below |
| `Transforms.ThreePhaseExpanded` | utils/math.ts:8-14 | a = A cos θ, and b and c equal A(-½ cos θ ± (√3/2) sin θ): a closed form of the 120°-shifted phases in terms of θ itself |
| `Transforms.ThreePhaseBalanced` | utils/math.ts:7-14 | for every angle and amplitude the three phases sum to zero |
| `Transforms.ClarkeLinear` | utils/math.ts:16-24 | Clarke of a linear combination of two triples is the same combination of their Clarke vectors, for both alpha and beta |
| `Transforms.ClarkeOfZero` | utils/math.ts:20-24 | the all-zero triple maps to (0, 0) |
| `Transforms.ClarkeAmplitudeInvariant` | utils/math.ts:16-24 | for any triple with a + b + c = 0, alpha equals a |
| `Transforms.ClarkeInvertible` | utils/math.ts:16-24 | on a balanced triple, a = alpha and b, c = -½ alpha ± (√3/2) beta: the inverse Clarke transform recovers the triple |
| `Transforms.ClarkeOfThreePhase` | utils/math.ts:8-24 | Clarke of ThreePhase(θ, A) is exactly (A cos θ, A sin θ) |
| `Transforms.ParkAtZero` | utils/math.ts:26-33 | Park by θ = 0 returns (alpha, beta) unchanged |
| `Transforms.ParkPreservesMagnitude` | utils/math.ts:27-32 | d² + q² = alpha² + beta² for every θ |
| `Transforms.ParkInvertible` | utils/math.ts:27-32 | rotating (d, q) back by θ yields (alpha, beta) |
| `Transforms.ParkStationary` | utils/math.ts:29-33 | Park(Clarke(ThreePhase(θ, A)), θ) = (A, 0) for every θ and A |
| `Transforms.AtAngleZero` | utils/math.ts:8-33 | θ = 0, A = 1 gives phases (1, -½, -½), Clarke (1, 0) and Park (1, 0) |
| `Transforms.AtQuarterTurn` | utils/math.ts:8-33 | θ = π/2, A = 1 gives phases (0, √3/2, -√3/2), Clarke (0, 1) and Park (1, 0) |
| `JsNumber.Trunc` | App.tsx:46 | the quotient rounded toward zero: it has the quotient's sign and lies within 1 of it, on the zero side |
| `JsNumber.Rem` | App.tsx:46 | x % m for m > 0: in [0, m) when x ≥ 0 and in (-m, 0] when x ≤ 0 |
| `JsNumber.RemIsCongruent` | App.tsx:46 | x and x % m differ by a whole multiple of m |
| `JsNumber.RemOfReduced` | App.tsx:46 | an x with -m < x < m is returned unchanged |
| `Simulation.HISTORY_LENGTH` | App.tsx:20 | definition: the constant 300 |
| `Simulation.INITIAL_STATE` | App.tsx:23-29 | definition: angle 0, speed 1, amplitude 1, playing, projections shown |
| `Simulation.ZeroHistory` | App.tsx:31-33 | 300 samples of the given width whose every component is 0 |
| `Simulation.Record` | App.tsx:53-60 | unshift then pop: the length is unchanged, index 0 holds the new sample and new[i+1] = old[i] for every i < length - 1 |
| `Simulation.RecordKeepsShape` | App.tsx:53-60 | recording a sample of the buffer's width keeps 300 slots, each of that width |
| `Simulation.PhaseSample` | App.tsx:53 | definition: the list [a, b, c] the abc buffer receives |
| `Simulation.ClarkeSample` | App.tsx:56 | definition: the list [alpha, beta] the alpha-beta buffer receives |
| `Simulation.ParkSample` | App.tsx:59 | definition: the list [d, q] the dq buffer receives |
| `Simulation.DeltaTime` | App.tsx:40 | definition: (time - lastTime) / 1000, the same expression as the source line |
| `Simulation.DeltaAngle` | App.tsx:45 | definition: speed * 2 * PI * deltaTime, the same expression as the source line |
| `Simulation.AdvanceAngle` | App.tsx:45-46 | the new angle (angle + speed·2π·dt) % 2π lies strictly between -2π and 2π, whatever the sign of speed |
| `Simulation.Advance` | App.tsx:42-46 | the record the tick's updater returns: unchanged while paused; while playing, only the angle changes, to AdvanceAngle; speed, amplitude and both flags always kept |
| `Simulation.AdvanceKeepsAngleWrapped` | App.tsx:45-46 | with angle in [0, 2π), speed ≥ 0 and dt ≥ 0, the new angle is again in [0, 2π) |
| `Simulation.AdvanceAngleIsCongruent` | App.tsx:45-46 | the new angle differs from angle + deltaAngle by a whole number of turns |
| `Simulation.NegativeSpeedGivesNegativeAngle` | App.tsx:46 | from angle 0 at speed -0.25 for one second the angle becomes -π/2, outside [0, 2π) |
| `Simulation.AdvanceAll` | App.tsx:42-62 | definition: the state after a run of frames, the tick's updater applied once per elapsed time in order; it stands for a sequence of calls and has no single source line |
| `Simulation.AdvanceAllKeepsAngleWrapped` | App.tsx:42-62 | after any number of ticks with dt ≥ 0 and speed ≥ 0, an angle that started in [0, 2π) is still there |
| `Simulation.AdvanceAllKeepsSettings` | App.tsx:62 | any number of ticks leaves speed, amplitude, isPlaying and showProjections unchanged |
| `Simulation.AdvanceAllWhilePaused` | App.tsx:43 | while paused, any number of ticks leaves the state exactly as it was |
| `Simulation.ParkSampleIsConstant` | App.tsx:48-51 | the dq sample built from newAngle, with Park also at newAngle, is [A, 0] |
| `Simulation.TogglePlay` | App.tsx:94 | isPlaying is negated; every other field is kept |
| `Simulation.ResetAngle` | App.tsx:99 | angle becomes 0; speed, amplitude and both flags are kept |
| `Simulation.ChangeSpeed` | App.tsx:101 | speed becomes the given value, unclamped; every other field is kept |
| `Simulation.ChangeAmplitude` | App.tsx:102 | amplitude becomes the given value, unclamped; every other field is kept |
| `Simulation.ToggleProjections` | App.tsx:103 | showProjections is negated; every other field is kept |
| `Simulation.TogglesAreInvolutions` | App.tsx:94-103 | toggling play twice, or projections twice, restores the state |
| `Simulation.ResetIsIdempotent` | App.tsx:95-100 | resetting the state twice is the same as resetting once |
| `Simulation.Simulator.constructor` | App.tsx:23-36 | initial state (angle 0, speed 1, amplitude 1, playing, projections shown), no previous frame, and abc, alpha-beta and dq buffers zero-filled to 300 samples of width 3, 2 and 2 |
| `Simulation.Simulator.Animate` | App.tsx:38-67 | records lastTime := time on every frame. A first frame changes nothing else. A paused frame leaves the buffers as they were and the state unchanged. A playing frame sets the state to Advance and records in each buffer the sample from the new angle; the new dq sample is [A, 0]. The buffer shapes are preserved |
| `Simulation.Simulator.OnReset` | App.tsx:95-100 | the buffers become the zero fill. The state becomes ResetAngle of the old state. lastTime is kept. The result does not depend on the old buffers or angle, so a second reset changes nothing |
| `Simulation.Simulator.OnTogglePlay` | App.tsx:94 | the state becomes TogglePlay of the old one; buffers and lastTime are untouched |
| `Simulation.Simulator.OnChangeSpeed` | App.tsx:101 | the state becomes ChangeSpeed of the old one; buffers and lastTime are untouched |
| `Simulation.Simulator.OnChangeAmplitude` | App.tsx:102 | the state becomes ChangeAmplitude of the old one; buffers and lastTime are untouched |
| `Simulation.Simulator.OnToggleProjections` | App.tsx:103 | the state becomes ToggleProjections of the old one; buffers and lastTime are untouched |
| `Simulation.Simulator.CurrentPhase` | App.tsx:76 | the displayed phases at the current angle are balanced, and a = A cos(angle) |
| `Simulation.Simulator.CurrentClarke` | App.tsx:77 | the displayed stationary vector is (A cos(angle), A sin(angle)) |
| `Simulation.Simulator.CurrentPark` | App.tsx:78 | the displayed rotating vector is always (A, 0) |

## Left out

- The frame scheduling loop (App.tsx:66-74) is not modelled, and neither is its cancellation on unmount. `requestAnimationFrame` and `cancelAnimationFrame` are browser plumbing. A frame is a call to `Simulator.Animate` with its timestamp.
- React's state mechanics are not modelled. In the source the `setState` updater is queued and may be re-run in development mode. The model applies each update at once, exactly once.
- IEEE-754 rounding and the accuracy of `Math.cos` and `Math.sin` are left out. The model uses exact reals and the laws in `Lawful`, so the source's approximate equalities become exact.
- NaN and infinities are not modelled. The source does not check for them.
- JsNumber.Rem: covers positive divisors only. The source divides only by 2π. JavaScript's answer for a zero or negative divisor is not modelled.
- The controls' slider bounds (speed 0.1 to 3, amplitude 0.2 to 1.5) are not enforced. The core does not enforce them. They appear only as the hypothesis speed ≥ 0 in the angle-wrap lemmas.
- `Array.fill` makes all 300 initial slots share one array object. This aliasing is not modelled. No slot is ever mutated in place, so the sharing cannot be observed.
- The vector plots, waveform paths and control widgets are not modelled (`components/VectorPlot.tsx`, `components/WaveformPlot.tsx`, `components/Controls.tsx`). They only render the state.
