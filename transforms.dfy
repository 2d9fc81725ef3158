/**
 * The transform engine of utils/math.ts: balanced three-phase signals, the
 * amplitude-invariant Clarke transform and the Park rotation, over exact
 * reals. Math.cos, Math.sin, Math.PI and Math.sqrt(3) come from a Trig value.
 */
module Transforms {
  import opened Trigonometry
  import opened Types

  /** PI = Math.PI. */
  function Pi(t: Trig): real {
    t.pi
  }

  /** TWO_PI = 2 * PI, one full turn. */
  function TwoPi(t: Trig): real {
    2.0 * t.pi
  }

  /** SQRT3 = Math.sqrt(3). */
  function Sqrt3(t: Trig): real {
    t.sqrt3
  }

  /**
   * calculateThreePhase: three sinusoids of the given amplitude, 120 degrees
   * apart; the shift (2 * PI) / 3 is ThirdTurn.
   */
  function ThreePhase(t: Trig, angle: real, amplitude: real): PhaseValues {
    PhaseValues(
      amplitude * t.cos(angle),
      amplitude * t.cos(angle - ThirdTurn(t)),
      amplitude * t.cos(angle + ThirdTurn(t)))
  }

  /** calculateClarke: the 2x3 matrix 2/3 * [1, -1/2, -1/2; 0, sqrt3/2, -sqrt3/2]. */
  function Clarke(t: Trig, phase: PhaseValues): ClarkeValues {
    var alpha := (2.0 / 3.0) * (phase.a - 0.5 * phase.b - 0.5 * phase.c);
    var beta := (2.0 / 3.0) * ((Sqrt3(t) / 2.0) * phase.b - (Sqrt3(t) / 2.0) * phase.c);
    ClarkeValues(alpha, beta)
  }

  /** calculatePark: the stationary frame seen from a frame rotated by theta. */
  function Park(t: Trig, clarke: ClarkeValues, theta: real): ParkValues {
    var d := clarke.alpha * t.cos(theta) + clarke.beta * t.sin(theta);
    var q := -clarke.alpha * t.sin(theta) + clarke.beta * t.cos(theta);
    ParkValues(d, q)
  }

  // ---------------------------------------------------------------------------
  // Three-phase signals

  /**
   * The three phases in terms of cos and sin of the angle itself: an
   * independent closed form of the b and c phases.
   */
  lemma ThreePhaseExpanded(t: Trig, angle: real, amplitude: real)
    requires Lawful(t)
    ensures var p := ThreePhase(t, angle, amplitude);
      && p.a == amplitude * t.cos(angle)
      && p.b == amplitude * (-0.5 * t.cos(angle) + (t.sqrt3 / 2.0) * t.sin(angle))
      && p.c == amplitude * (-0.5 * t.cos(angle) - (t.sqrt3 / 2.0) * t.sin(angle))
  {
    CosSub(t, angle, ThirdTurn(t));
    CosAdd(t, angle, ThirdTurn(t));
  }

  /** The three phases are balanced: they sum to zero at every angle and amplitude. */
  lemma ThreePhaseBalanced(t: Trig, angle: real, amplitude: real)
    requires Lawful(t)
    ensures var p := ThreePhase(t, angle, amplitude);
      p.a + p.b + p.c == 0.0
  {
    ThreePhaseExpanded(t, angle, amplitude);
  }

  // ---------------------------------------------------------------------------
  // Clarke

  /** The Clarke transform is linear in the phase triple. */
  lemma ClarkeLinear(t: Trig, p: PhaseValues, p': PhaseValues, k: real, k': real)
    ensures var sum := PhaseValues(k * p.a + k' * p'.a, k * p.b + k' * p'.b, k * p.c + k' * p'.c);
      && Clarke(t, sum).alpha == k * Clarke(t, p).alpha + k' * Clarke(t, p').alpha
      && Clarke(t, sum).beta == k * Clarke(t, p).beta + k' * Clarke(t, p').beta
  {}

  /** The zero triple maps to the origin of the stationary frame. */
  lemma ClarkeOfZero(t: Trig)
    ensures Clarke(t, PhaseValues(0.0, 0.0, 0.0)) == ClarkeValues(0.0, 0.0)
  {}

  /** Amplitude invariance: on a balanced triple alpha is the a phase itself. */
  lemma ClarkeAmplitudeInvariant(t: Trig, p: PhaseValues)
    requires p.a + p.b + p.c == 0.0
    ensures Clarke(t, p).alpha == p.a
  {}

  /**
   * On a balanced triple nothing is lost: b and c are recovered from alpha and
   * beta by the inverse Clarke transform.
   */
  lemma ClarkeInvertible(t: Trig, p: PhaseValues)
    requires Lawful(t)
    requires p.a + p.b + p.c == 0.0
    ensures var c := Clarke(t, p);
      && p.a == c.alpha
      && p.b == -0.5 * c.alpha + (t.sqrt3 / 2.0) * c.beta
      && p.c == -0.5 * c.alpha - (t.sqrt3 / 2.0) * c.beta
  {}

  /** Fed from a balanced three-phase signal, Clarke gives (A cos angle, A sin angle). */
  lemma ClarkeOfThreePhase(t: Trig, angle: real, amplitude: real)
    requires Lawful(t)
    ensures Clarke(t, ThreePhase(t, angle, amplitude))
         == ClarkeValues(amplitude * t.cos(angle), amplitude * t.sin(angle))
  {
    var p := ThreePhase(t, angle, amplitude);
    var s := t.sqrt3;
    ThreePhaseExpanded(t, angle, amplitude);
    assert p.b - p.c == amplitude * s * t.sin(angle);
    assert Clarke(t, p).beta == (s / 3.0) * (p.b - p.c);
    assert (s / 3.0) * (amplitude * s * t.sin(angle)) == (s * s / 3.0) * (amplitude * t.sin(angle));
  }

  // ---------------------------------------------------------------------------
  // Park

  /** At theta = 0 the rotating frame coincides with the stationary one. */
  lemma ParkAtZero(t: Trig, c: ClarkeValues)
    requires Lawful(t)
    ensures Park(t, c, 0.0) == ParkValues(c.alpha, c.beta)
  {
    AtZero(t);
  }

  /** Park is a rotation: it preserves the squared magnitude of the vector. */
  lemma ParkPreservesMagnitude(t: Trig, c: ClarkeValues, theta: real)
    requires Lawful(t)
    ensures var p := Park(t, c, theta);
      p.d * p.d + p.q * p.q == c.alpha * c.alpha + c.beta * c.beta
  {}

  /** Park is invertible: rotating (d, q) back by theta gives (alpha, beta). */
  lemma ParkInvertible(t: Trig, c: ClarkeValues, theta: real)
    requires Lawful(t)
    ensures var p := Park(t, c, theta);
      && c.alpha == p.d * t.cos(theta) - p.q * t.sin(theta)
      && c.beta == p.d * t.sin(theta) + p.q * t.cos(theta)
  {}

  /**
   * Park stationarity: when Park rotates by the same angle that produced the
   * three-phase sample, the vector is locked on the d axis at the amplitude.
   */
  lemma ParkStationary(t: Trig, angle: real, amplitude: real)
    requires Lawful(t)
    ensures Park(t, Clarke(t, ThreePhase(t, angle, amplitude)), angle) == ParkValues(amplitude, 0.0)
  {
    var co, si := t.cos(angle), t.sin(angle);
    ClarkeOfThreePhase(t, angle, amplitude);
    Pythagoras(t, angle);
    assert (amplitude * co) * co + (amplitude * si) * si == amplitude * (si * si + co * co);
  }

  // ---------------------------------------------------------------------------
  // Worked cases

  /** angle 0, amplitude 1: phases (1, -1/2, -1/2), Clarke (1, 0), Park (1, 0). */
  lemma AtAngleZero(t: Trig)
    requires Lawful(t)
    ensures ThreePhase(t, 0.0, 1.0) == PhaseValues(1.0, -0.5, -0.5)
    ensures Clarke(t, ThreePhase(t, 0.0, 1.0)) == ClarkeValues(1.0, 0.0)
    ensures Park(t, Clarke(t, ThreePhase(t, 0.0, 1.0)), 0.0) == ParkValues(1.0, 0.0)
  {
    AtZero(t);
    ThreePhaseExpanded(t, 0.0, 1.0);
    ParkStationary(t, 0.0, 1.0);
  }

  /**
   * angle pi/2, amplitude 1: phases (0, sqrt3/2, -sqrt3/2), Clarke (0, 1),
   * Park (1, 0).
   */
  lemma AtQuarterTurn(t: Trig)
    requires Lawful(t)
    ensures ThreePhase(t, t.pi / 2.0, 1.0) == PhaseValues(0.0, t.sqrt3 / 2.0, -t.sqrt3 / 2.0)
    ensures Clarke(t, ThreePhase(t, t.pi / 2.0, 1.0)) == ClarkeValues(0.0, 1.0)
    ensures Park(t, Clarke(t, ThreePhase(t, t.pi / 2.0, 1.0)), t.pi / 2.0) == ParkValues(1.0, 0.0)
  {
    ThreePhaseExpanded(t, t.pi / 2.0, 1.0);
    ClarkeOfThreePhase(t, t.pi / 2.0, 1.0);
    ParkStationary(t, t.pi / 2.0, 1.0);
  }
}
