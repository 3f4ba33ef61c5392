/**
 * The `/plot` route of interactive.py hands a parameter dictionary to both forward models.
 * When that dictionary is one the resolver produced, the models always find every key and
 * every value converts.
 */
module Plot {
  import opened Wrappers
  import opened Values
  import opened Interactive
  import opened Simulations

  /** Every number of a resolved parameter set is finite (the catalog held no infinity). */
  predicate AllFinite(p: ParameterSet) {
    p.period.Finite? && p.ecc.Finite? && p.omega.Finite? && p.aRs.Finite? && p.orbinc.Finite? &&
    p.rpRs.Finite? && p.k.Finite? && p.vsys.Finite? && p.t14.Finite? && p.yerrLc.Finite?
  }

  /**
   * A resolved dictionary never makes a forward model fail on a missing key or an
   * unconvertible value; only an infinity taken over from the catalog can stop it, and a
   * catalog without one gives both curves.
   */
  lemma ResolvedParametersFeedBothModels(
    systemId: string, rows: seq<Row>, parseText: string -> Option<Float>,
    flux: (TransitParams, real) -> real, kepler: (RvParams, real) -> real, noise: seq<real>)
    requires |noise| == SampleCount
    ensures var p := RetrieveSystemParameters(systemId, Ok(rows)).value;
            var lc := LightCurve(AsDict(p), parseText, flux, noise);
            var rv := RvCurves(AsDict(p), parseText, kepler, noise);
            && (lc.Err? ==> lc.error.NonFinite?)
            && (rv.Err? ==> rv.error.NonFinite?)
            && (AllFinite(p) ==> lc.Ok? && rv.Ok?)
  {
  }

  /**
   * With no catalog match the transit window is the bare half-hour padding: times run from
   * -0.25 to +0.25 hours, and the RV grid collapses to the single point 0 (period 0).
   */
  lemma NoMatchWindows(systemId: string, rows: seq<Row>, parseText: string -> Option<Float>,
                       flux: (TransitParams, real) -> real, kepler: (RvParams, real) -> real, noise: seq<real>)
    requires |noise| == SampleCount
    requires |rows| != 1
    ensures var d := AsDict(RetrieveSystemParameters(systemId, Ok(rows)).value);
            var lc := LightCurve(d, parseText, flux, noise);
            var rv := RvCurves(d, parseText, kepler, noise);
            && lc.Ok? && lc.value.times[0] == -0.25 && lc.value.times[SampleCount - 1] == 0.25
            && rv.Ok? && forall i :: 0 <= i < SampleCount ==> rv.value.times[i] == 0.0
  {
    NoSingleMatchGivesDefaults(systemId, rows);
    ResolvedParametersFeedBothModels(systemId, rows, parseText, flux, kepler, noise);
    RvCurvesProperties(AsDict(Defaults(systemId)), parseText, kepler, noise);
  }
}
