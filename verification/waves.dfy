/**
 * The simulated brain-wave model (`simular_ondas_cerebrais`).
 *
 * Four band amplitudes are straight-line functions of attention (a
 * percentage) and relaxation (a 0..10 score); each is then clamped at zero.
 */
module Waves {

  /** The firmware's `EstadoCognitivo` record. */
  datatype Reading = Reading(
    attention: real,
    relaxation: real,
    alpha: real,
    beta: real,
    theta: real,
    delta: real)

  function ClampNonNegative(x: real): (r: real)
    ensures r >= 0.0 && r >= x
    ensures x >= 0.0 ==> r == x
    ensures x < 0.0 ==> r == 0.0
  {
    if x < 0.0 then 0.0 else x
  }

  /** Fills in the four bands of a reading of `attention` and `relaxation`. */
  function Derive(attention: real, relaxation: real): (r: Reading)
    ensures r.attention == attention && r.relaxation == relaxation
    ensures r.alpha >= 0.0 && r.beta >= 0.0 && r.theta >= 0.0 && r.delta >= 0.0
  {
    var beta := 10.0 + (attention / 100.0) * 20.0;
    var theta := 20.0 - (attention / 100.0) * 15.0;
    var alpha := 5.0 + (relaxation / 10.0) * 10.0;
    var activation := (attention / 100.0 + relaxation / 10.0) / 2.0;
    var delta := 20.0 - activation * 18.0;
    Reading(attention, relaxation,
            ClampNonNegative(alpha), ClampNonNegative(beta),
            ClampNonNegative(theta), ClampNonNegative(delta))
  }

  predicate InRange(x: real, lo: real, hi: real) {
    lo <= x <= hi
  }

  /** For readings inside the sensor ranges, every band stays in its documented range. */
  lemma BandRanges(attention: real, relaxation: real)
    requires InRange(attention, 0.0, 100.0) && InRange(relaxation, 0.0, 10.0)
    ensures var r := Derive(attention, relaxation);
      InRange(r.beta, 10.0, 30.0) && InRange(r.theta, 5.0, 20.0) &&
      InRange(r.alpha, 5.0, 15.0) && InRange(r.delta, 2.0, 20.0)
  {
  }

  /** Inside the sensor range no clamp fires, so beta gives back the attention and alpha the relaxation. */
  lemma BandsDetermineInputs(attention: real, relaxation: real)
    requires InRange(attention, 0.0, 100.0) && InRange(relaxation, 0.0, 10.0)
    ensures var r := Derive(attention, relaxation);
      (r.beta - 10.0) * 5.0 == attention && r.alpha - 5.0 == relaxation
  {
  }

  /** More attention never lowers beta and never raises theta; more of either input never raises delta. */
  lemma Monotone(a1: real, r1: real, a2: real, r2: real)
    requires a1 <= a2 && r1 <= r2
    ensures Derive(a1, r1).beta <= Derive(a2, r2).beta
    ensures Derive(a1, r1).theta >= Derive(a2, r2).theta
    ensures Derive(a1, r1).alpha <= Derive(a2, r2).alpha
    ensures Derive(a1, r1).delta >= Derive(a2, r2).delta
  {
  }

  /** The clamp is reachable: attention over the sensor range drives theta to exactly 0. */
  lemma ThetaClamped()
    ensures Derive(200.0, 0.0).theta == 0.0
  {
  }
}
