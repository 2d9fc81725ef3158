/** The records of types.ts, with numbers as exact reals. */
module Types {

  /** The independently mutable part of the simulation. */
  datatype SimulationState = SimulationState(
    angle: real,  // current angle in radians
    speed: real,  // rotation speed, in turns per second
    amplitude: real,
    isPlaying: bool,
    showProjections: bool)

  /** Instantaneous values of the three phases. */
  datatype PhaseValues = PhaseValues(a: real, b: real, c: real)

  /** The stationary two-axis (alpha, beta) frame. */
  datatype ClarkeValues = ClarkeValues(alpha: real, beta: real)

  /** The rotating two-axis (d, q) frame. */
  datatype ParkValues = ParkValues(d: real, q: real)
}
