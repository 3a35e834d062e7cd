/** The CLHEP system of units used throughout the application: lengths in
    millimetres and energies in MeV, so that every named unit is a plain
    scale factor. */
module Units {
  const mm: real := 1.0
  const cm: real := 10.0
  const cm2: real := 100.0
  const um: real := 0.001
  const MeV: real := 1.0
  const keV: real := 0.001

  /** The LET output unit keV/um; it is 1 in the internal units. */
  const keVPerUm: real := keV / um
}
