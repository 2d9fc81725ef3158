/**
 * The per-frame simulation of App.tsx: the simulation state, the clock that
 * advances its angle, the three fixed-length history buffers (abc, alpha-beta
 * and dq) and the commands issued by the controls.
 *
 * The state record is replaced wholesale by pure updaters, as the source's
 * setState callbacks do; the history buffers and the last frame time are
 * fields that the tick and the reset command overwrite in place.
 */
module Simulation {
  import opened Trigonometry
  import opened Types
  import opened Transforms
  import opened JsNumber

  datatype Option<T> = None | Some(value: T)

  /** Number of samples each history buffer holds. */
  const HISTORY_LENGTH: nat := 300

  /** The state the session starts with. */
  const INITIAL_STATE: SimulationState := SimulationState(0.0, 1.0, 1.0, true, true)

  /** One history slot: a plain list of numbers (3 for abc, 2 for alpha-beta and dq). */
  type Sample = seq<real>

  // ---------------------------------------------------------------------------
  // History buffers

  /** Every buffer has HISTORY_LENGTH slots, each of the domain's width. */
  ghost predicate WellFormed(h: seq<Sample>, width: nat) {
    |h| == HISTORY_LENGTH && forall i :: 0 <= i < |h| ==> |h[i]| == width
  }

  /** Array(HISTORY_LENGTH).fill of a zero sample: the initial and post-reset content. */
  function ZeroHistory(width: nat): (h: seq<Sample>)
    ensures WellFormed(h, width)
    ensures forall i, j :: 0 <= i < |h| && 0 <= j < width ==> h[i][j] == 0.0
  {
    seq(HISTORY_LENGTH, _ => seq(width, _ => 0.0))
  }

  /**
   * unshift(x) followed by pop(): the fresh sample goes to the front and the
   * oldest one falls off the back, so the length never changes.
   */
  function Record(h: seq<Sample>, x: Sample): (r: seq<Sample>)
    ensures |r| == |h|
    ensures |h| > 0 ==> r[0] == x
    ensures forall i :: 0 <= i < |h| - 1 ==> r[i + 1] == h[i]
  {
    ([x] + h)[..|h|]
  }

  lemma RecordKeepsShape(h: seq<Sample>, x: Sample, width: nat)
    requires WellFormed(h, width) && |x| == width
    ensures WellFormed(Record(h, x), width)
  {}

  function PhaseSample(p: PhaseValues): Sample {
    [p.a, p.b, p.c]
  }

  function ClarkeSample(c: ClarkeValues): Sample {
    [c.alpha, c.beta]
  }

  function ParkSample(p: ParkValues): Sample {
    [p.d, p.q]
  }

  // ---------------------------------------------------------------------------
  // Simulation clock

  /** Seconds elapsed between two animation-frame timestamps given in milliseconds. */
  function DeltaTime(lastTime: real, time: real): real {
    (time - lastTime) / 1000.0
  }

  /** The angle swept in deltaTime seconds at speed turns per second. */
  function DeltaAngle(t: Trig, speed: real, deltaTime: real): real {
    speed * 2.0 * Pi(t) * deltaTime
  }

  /**
   * The new angle: the old one advanced by DeltaAngle, reduced by
   * JavaScript's truncating % (2 * PI). It is always less than a full turn in
   * magnitude, whatever the sign of speed.
   */
  function AdvanceAngle(t: Trig, angle: real, speed: real, deltaTime: real): (r: real)
    requires t.pi > 0.0
    ensures -TwoPi(t) < r < TwoPi(t)
  {
    Rem(angle + DeltaAngle(t, speed, deltaTime), 2.0 * Pi(t))
  }

  /**
   * The record the tick's setState updater returns: unchanged while paused,
   * otherwise with only the angle advanced.
   */
  function Advance(t: Trig, prev: SimulationState, deltaTime: real): (r: SimulationState)
    requires t.pi > 0.0
    ensures !prev.isPlaying ==> r == prev
    ensures prev.isPlaying ==> r.angle == AdvanceAngle(t, prev.angle, prev.speed, deltaTime)
    ensures r.speed == prev.speed && r.amplitude == prev.amplitude
    ensures r.isPlaying == prev.isPlaying && r.showProjections == prev.showProjections
  {
    if !prev.isPlaying then prev
    else prev.(angle := AdvanceAngle(t, prev.angle, prev.speed, deltaTime))
  }

  /**
   * With a non-negative speed and elapsed time, an angle in [0, 2*PI) stays
   * in [0, 2*PI) after a tick.
   */
  lemma AdvanceKeepsAngleWrapped(t: Trig, prev: SimulationState, deltaTime: real)
    requires t.pi > 0.0
    requires 0.0 <= prev.angle < TwoPi(t)
    requires prev.speed >= 0.0 && deltaTime >= 0.0
    ensures 0.0 <= Advance(t, prev, deltaTime).angle < TwoPi(t)
  {}

  /** The new angle differs from the advanced one by a whole number of turns. */
  lemma AdvanceAngleIsCongruent(t: Trig, angle: real, speed: real, deltaTime: real)
    requires t.pi > 0.0
    ensures Congruent(angle + DeltaAngle(t, speed, deltaTime), AdvanceAngle(t, angle, speed, deltaTime), TwoPi(t))
  {
    RemIsCongruent(angle + DeltaAngle(t, speed, deltaTime), 2.0 * Pi(t));
  }

  /**
   * The truncating % does not wrap a negative angle into [0, 2*PI): from angle
   * 0 at speed -0.25 for one second the angle becomes -PI/2.
   */
  lemma NegativeSpeedGivesNegativeAngle(t: Trig)
    requires t.pi > 0.0
    ensures Advance(t, SimulationState(0.0, -0.25, 1.0, true, true), 1.0).angle == -t.pi / 2.0
  {
    assert DeltaAngle(t, -0.25, 1.0) == -t.pi / 2.0;
    RemOfReduced(0.0 + DeltaAngle(t, -0.25, 1.0), 2.0 * Pi(t));
  }

  /** The state after a run of ticks with the given elapsed times. */
  function AdvanceAll(t: Trig, s: SimulationState, deltaTimes: seq<real>): SimulationState
    requires t.pi > 0.0
    decreases |deltaTimes|
  {
    if deltaTimes == [] then s
    else AdvanceAll(t, Advance(t, s, deltaTimes[0]), deltaTimes[1..])
  }

  /** After any number of ticks the angle is still in [0, 2*PI), for a non-negative speed. */
  lemma {:induction false} AdvanceAllKeepsAngleWrapped(t: Trig, s: SimulationState, deltaTimes: seq<real>)
    requires t.pi > 0.0
    requires 0.0 <= s.angle < TwoPi(t) && s.speed >= 0.0
    requires forall i :: 0 <= i < |deltaTimes| ==> deltaTimes[i] >= 0.0
    ensures 0.0 <= AdvanceAll(t, s, deltaTimes).angle < TwoPi(t)
    decreases |deltaTimes|
  {
    if deltaTimes != [] {
      AdvanceKeepsAngleWrapped(t, s, deltaTimes[0]);
      AdvanceAllKeepsAngleWrapped(t, Advance(t, s, deltaTimes[0]), deltaTimes[1..]);
    }
  }

  /** Ticks never change speed, amplitude, the play flag or the projections flag. */
  lemma {:induction false} AdvanceAllKeepsSettings(t: Trig, s: SimulationState, deltaTimes: seq<real>)
    requires t.pi > 0.0
    ensures var r := AdvanceAll(t, s, deltaTimes);
      && r.speed == s.speed && r.amplitude == s.amplitude
      && r.isPlaying == s.isPlaying && r.showProjections == s.showProjections
    decreases |deltaTimes|
  {
    if deltaTimes != [] {
      AdvanceAllKeepsSettings(t, Advance(t, s, deltaTimes[0]), deltaTimes[1..]);
    }
  }

  /** While paused, any number of ticks leaves the state exactly as it was. */
  lemma {:induction false} AdvanceAllWhilePaused(t: Trig, s: SimulationState, deltaTimes: seq<real>)
    requires t.pi > 0.0 && !s.isPlaying
    ensures AdvanceAll(t, s, deltaTimes) == s
    decreases |deltaTimes|
  {
    if deltaTimes != [] {
      AdvanceAllWhilePaused(t, Advance(t, s, deltaTimes[0]), deltaTimes[1..]);
    }
  }

  /** The dq sample a tick records: locked on the d axis at the amplitude. */
  lemma ParkSampleIsConstant(t: Trig, angle: real, amplitude: real)
    requires Lawful(t)
    ensures ParkSample(Park(t, Clarke(t, ThreePhase(t, angle, amplitude)), angle)) == [amplitude, 0.0]
  {
    ParkStationary(t, angle, amplitude);
  }

  // ---------------------------------------------------------------------------
  // Commands: pure updates of the state record

  /** onTogglePlay: flips isPlaying and nothing else. */
  function TogglePlay(s: SimulationState): (r: SimulationState)
    ensures r.isPlaying == !s.isPlaying
    ensures r.angle == s.angle && r.speed == s.speed && r.amplitude == s.amplitude
    ensures r.showProjections == s.showProjections
  {
    s.(isPlaying := !s.isPlaying)
  }

  /** onChangeSpeed: takes the new speed as given (no clamping) and nothing else. */
  function ChangeSpeed(s: SimulationState, speed: real): (r: SimulationState)
    ensures r.speed == speed
    ensures r.angle == s.angle && r.amplitude == s.amplitude
    ensures r.isPlaying == s.isPlaying && r.showProjections == s.showProjections
  {
    s.(speed := speed)
  }

  /** onChangeAmplitude: takes the new amplitude as given (no clamping) and nothing else. */
  function ChangeAmplitude(s: SimulationState, amplitude: real): (r: SimulationState)
    ensures r.amplitude == amplitude
    ensures r.angle == s.angle && r.speed == s.speed
    ensures r.isPlaying == s.isPlaying && r.showProjections == s.showProjections
  {
    s.(amplitude := amplitude)
  }

  /** onToggleProjections: flips showProjections and nothing else. */
  function ToggleProjections(s: SimulationState): (r: SimulationState)
    ensures r.showProjections == !s.showProjections
    ensures r.angle == s.angle && r.speed == s.speed && r.amplitude == s.amplitude
    ensures r.isPlaying == s.isPlaying
  {
    s.(showProjections := !s.showProjections)
  }

  /** The state part of onReset: the angle goes back to 0 and nothing else changes. */
  function ResetAngle(s: SimulationState): (r: SimulationState)
    ensures r.angle == 0.0
    ensures r.speed == s.speed && r.amplitude == s.amplitude
    ensures r.isPlaying == s.isPlaying && r.showProjections == s.showProjections
  {
    s.(angle := 0.0)
  }

  /** Toggling twice restores the state. */
  lemma TogglesAreInvolutions(s: SimulationState)
    ensures TogglePlay(TogglePlay(s)) == s
    ensures ToggleProjections(ToggleProjections(s)) == s
  {}

  /** Resetting twice is the same as resetting once. */
  lemma ResetIsIdempotent(s: SimulationState)
    ensures ResetAngle(ResetAngle(s)) == ResetAngle(s)
  {}

  // ---------------------------------------------------------------------------
  // The session

  /**
   * One simulation session: the state record, the timestamp of the previous
   * frame (absent before the first one) and the three history buffers,
   * newest sample first.
   */
  class Simulator {
    const trig: Trig
    var state: SimulationState
    var lastTime: Option<real>
    var historyAbc: seq<Sample>
    var historyClarke: seq<Sample>
    var historyPark: seq<Sample>

    ghost predicate Valid()
      reads this
    {
      && Lawful(trig)
      && WellFormed(historyAbc, 3)
      && WellFormed(historyClarke, 2)
      && WellFormed(historyPark, 2)
    }

    /** The session start: initial state, no previous frame, zero-filled buffers. */
    constructor (t: Trig)
      requires Lawful(t)
      ensures Valid() && trig == t
      ensures state == INITIAL_STATE && lastTime == None
      ensures historyAbc == ZeroHistory(3)
      ensures historyClarke == ZeroHistory(2)
      ensures historyPark == ZeroHistory(2)
    {
      trig := t;
      state := INITIAL_STATE;
      lastTime := None;
      historyAbc := ZeroHistory(3);
      historyClarke := ZeroHistory(2);
      historyPark := ZeroHistory(2);
    }

    /**
     * The animate callback for a frame at the given timestamp (milliseconds).
     * The first frame only records its timestamp; a paused frame changes
     * neither the state nor the buffers; a playing frame advances the angle
     * and records one sample per domain, all three computed from the new
     * angle. Every frame records its timestamp.
     */
    method Animate(time: real)
      requires Valid()
      modifies this
      ensures Valid()
      ensures lastTime == Some(time)
      ensures old(lastTime).None? ==> state == old(state)
      ensures old(lastTime).Some? ==>
        state == Advance(trig, old(state), DeltaTime(old(lastTime).value, time))
      ensures old(lastTime).None? || !old(state).isPlaying ==>
        && historyAbc == old(historyAbc)
        && historyClarke == old(historyClarke)
        && historyPark == old(historyPark)
      ensures old(lastTime).Some? && old(state).isPlaying ==>
        var phase := ThreePhase(trig, state.angle, state.amplitude);
        var clarke := Clarke(trig, phase);
        && historyAbc == Record(old(historyAbc), PhaseSample(phase))
        && historyClarke == Record(old(historyClarke), ClarkeSample(clarke))
        && historyPark == Record(old(historyPark), ParkSample(Park(trig, clarke, state.angle)))
        && historyPark[0] == [state.amplitude, 0.0]
    {
      if lastTime.Some? {
        var deltaTime := DeltaTime(lastTime.value, time);
        if state.isPlaying {
          var newAngle := AdvanceAngle(trig, state.angle, state.speed, deltaTime);

          var phase := ThreePhase(trig, newAngle, state.amplitude);
          var clarke := Clarke(trig, phase);
          var park := Park(trig, clarke, newAngle);
          ParkSampleIsConstant(trig, newAngle, state.amplitude);

          RecordKeepsShape(historyAbc, PhaseSample(phase), 3);
          historyAbc := [PhaseSample(phase)] + historyAbc;
          historyAbc := historyAbc[..|historyAbc| - 1];

          RecordKeepsShape(historyClarke, ClarkeSample(clarke), 2);
          historyClarke := [ClarkeSample(clarke)] + historyClarke;
          historyClarke := historyClarke[..|historyClarke| - 1];

          RecordKeepsShape(historyPark, ParkSample(park), 2);
          historyPark := [ParkSample(park)] + historyPark;
          historyPark := historyPark[..|historyPark| - 1];

          state := state.(angle := newAngle);
        }
      }
      lastTime := Some(time);
    }

    /** onReset: zero-fills the three buffers and sets the angle to 0. */
    method OnReset()
      requires Valid()
      modifies this
      ensures Valid()
      ensures historyAbc == ZeroHistory(3)
      ensures historyClarke == ZeroHistory(2)
      ensures historyPark == ZeroHistory(2)
      ensures state == ResetAngle(old(state))
      ensures lastTime == old(lastTime)
    {
      historyAbc := ZeroHistory(3);
      historyClarke := ZeroHistory(2);
      historyPark := ZeroHistory(2);
      state := ResetAngle(state);
    }

    /** onTogglePlay: only the play flag changes; the buffers are not touched. */
    method OnTogglePlay()
      requires Valid()
      modifies this
      ensures Valid()
      ensures state == TogglePlay(old(state)) && lastTime == old(lastTime)
      ensures historyAbc == old(historyAbc) && historyClarke == old(historyClarke)
      ensures historyPark == old(historyPark)
    {
      state := TogglePlay(state);
    }

    /** onChangeSpeed: only the speed changes; the buffers are not touched. */
    method OnChangeSpeed(speed: real)
      requires Valid()
      modifies this
      ensures Valid()
      ensures state == ChangeSpeed(old(state), speed) && lastTime == old(lastTime)
      ensures historyAbc == old(historyAbc) && historyClarke == old(historyClarke)
      ensures historyPark == old(historyPark)
    {
      state := ChangeSpeed(state, speed);
    }

    /** onChangeAmplitude: only the amplitude changes; the buffers are not touched. */
    method OnChangeAmplitude(amplitude: real)
      requires Valid()
      modifies this
      ensures Valid()
      ensures state == ChangeAmplitude(old(state), amplitude) && lastTime == old(lastTime)
      ensures historyAbc == old(historyAbc) && historyClarke == old(historyClarke)
      ensures historyPark == old(historyPark)
    {
      state := ChangeAmplitude(state, amplitude);
    }

    /** onToggleProjections: only the projections flag changes; the buffers are not touched. */
    method OnToggleProjections()
      requires Valid()
      modifies this
      ensures Valid()
      ensures state == ToggleProjections(old(state)) && lastTime == old(lastTime)
      ensures historyAbc == old(historyAbc) && historyClarke == old(historyClarke)
      ensures historyPark == old(historyPark)
    {
      state := ToggleProjections(state);
    }

    /** currentPhase: the three phases at the current angle; they are balanced. */
    function CurrentPhase(): (p: PhaseValues)
      reads this
      requires Valid()
      ensures p.a + p.b + p.c == 0.0
      ensures p.a == state.amplitude * trig.cos(state.angle)
    {
      ThreePhaseBalanced(trig, state.angle, state.amplitude);
      ThreePhase(trig, state.angle, state.amplitude)
    }

    /** currentClarke: the current vector in the stationary frame, (A cos angle, A sin angle). */
    function CurrentClarke(): (c: ClarkeValues)
      reads this
      requires Valid()
      ensures c == ClarkeValues(state.amplitude * trig.cos(state.angle), state.amplitude * trig.sin(state.angle))
    {
      ClarkeOfThreePhase(trig, state.angle, state.amplitude);
      Clarke(trig, CurrentPhase())
    }

    /** currentPark: the current vector in the rotating frame, always (A, 0). */
    function CurrentPark(): (p: ParkValues)
      reads this
      requires Valid()
      ensures p == ParkValues(state.amplitude, 0.0)
    {
      ParkStationary(trig, state.angle, state.amplitude);
      Park(trig, CurrentClarke(), state.angle)
    }
  }
}
