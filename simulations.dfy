/**
 * The two forward models of simulations.py, `lightcurve` and `rvcurve`, over exact reals.
 * The batman transit model and the radvel Keplerian model are not part of this model: each is
 * a function parameter giving the model value at one sample time. The Gaussian draws of
 * `np.random.randn` are the input sequence `noise`.
 */
module Simulations {
  import opened Wrappers
  import opened Values

  /** Both curves are sampled at this many points. */
  const SampleCount: nat := 1000

  /** Why a forward model produces no curve at all. */
  datatype InputError =
    | MissingKey(key: string)       // KeyError from `input_values[key]`
    | NotConvertible(key: string)   // ValueError, TypeError or OverflowError from `float(...)`
    | NonFinite(key: string)        // the value is NaN or infinite: outside this real-valued model

  /** The three series a forward model returns. */
  datatype Curves = Curves(times: seq<real>, model: seq<real>, simulated: seq<real>)

  /** `float(input_values[key])`, as a real number. */
  function Coerce(input: map<string, Value>, key: string, parseText: string -> Option<Float>)
    : (r: Result<real, InputError>)
    ensures r.Ok? <==> key in input && ToFloat(input[key], parseText).Some? && ToFloat(input[key], parseText).value.Finite?
    ensures r.Ok? ==> ToFloat(input[key], parseText) == Some(Finite(r.value))
    ensures r.Err? ==> r.error.key == key && (r.error.MissingKey? <==> key !in input)
  {
    if key !in input then Err(MissingKey(key))
    else match ToFloat(input[key], parseText)
      case None => Err(NotConvertible(key))
      case Some(Finite(x)) => Ok(x)
      case Some(_) => Err(NonFinite(key))
  }

  /**
   * `np.linspace(start, stop, n)`: n equally spaced samples from `start` to `stop`, both included.
   */
  function Linspace(start: real, stop: real, n: nat): (t: seq<real>)
    ensures |t| == n
    ensures n >= 1 ==> t[0] == start
    ensures n >= 2 ==> t[n - 1] == stop
    ensures n >= 2 ==> forall i :: 0 <= i < n - 1 ==> t[i + 1] - t[i] == (stop - start) / (n - 1) as real
    ensures n != 1 && start == -stop ==> forall i :: 0 <= i < n ==> t[n - 1 - i] == -t[i]
  {
    if n == 0 then []
    else if n == 1 then [start]
    else
      var step := (stop - start) / (n - 1) as real;
      GridFacts(start, stop, n, step);
      Grid(start, step, n)
  }

  /** The samples `start + i * step` for `i` below `n`. */
  function Grid(start: real, step: real, n: nat): (g: seq<real>)
    ensures |g| == n
    ensures forall i :: 0 <= i < n ==> g[i] == start + (i as real) * step
  {
    seq(n, i requires 0 <= i < n => start + (i as real) * step)
  }

  /** The facts about `Grid` behind `Linspace`'s contract. */
  lemma GridFacts(start: real, stop: real, n: nat, step: real)
    requires n >= 2 && step == (stop - start) / (n - 1) as real
    ensures Grid(start, step, n)[n - 1] == stop
    ensures forall i :: 0 <= i < n - 1 ==> Grid(start, step, n)[i + 1] - Grid(start, step, n)[i] == step
    ensures start == -stop ==> forall i :: 0 <= i < n ==> Grid(start, step, n)[n - 1 - i] == -Grid(start, step, n)[i]
  {
    ScaledQuotient(stop - start, (n - 1) as real, step);
    GridSpacing(start, step, n);
    GridSymmetric(start, stop, n, step);
  }

  lemma GridSpacing(start: real, step: real, n: nat)
    ensures forall i :: 0 <= i < n - 1 ==> Grid(start, step, n)[i + 1] - Grid(start, step, n)[i] == step
  {
    var g := Grid(start, step, n);
    forall i | 0 <= i < n - 1
      ensures g[i + 1] - g[i] == step
    {
      Distribute(i as real, 1.0, step);
    }
  }

  lemma GridSymmetric(start: real, stop: real, n: nat, step: real)
    requires n >= 2 && ((n - 1) as real) * step == stop - start
    ensures start == -stop ==> forall i :: 0 <= i < n ==> Grid(start, step, n)[n - 1 - i] == -Grid(start, step, n)[i]
  {
    var g := Grid(start, step, n);
    if start == -stop {
      forall i | 0 <= i < n
        ensures g[n - 1 - i] == -g[i]
      {
        Distribute((n - 1) as real, -(i as real), step);
      }
    }
  }

  lemma ScaledQuotient(x: real, m: real, q: real)
    requires m != 0.0 && q == x / m
    ensures m * q == x
  {
  }

  lemma Distribute(a: real, b: real, c: real)
    ensures (a + b) * c == a * c + b * c
  {
  }

  /** Every sample multiplied by `factor` (numpy's `t * 24`). */
  function Scale(t: seq<real>, factor: real): (r: seq<real>)
    ensures |r| == |t|
    ensures forall i :: 0 <= i < |t| ==> r[i] == t[i] * factor
  {
    seq(|t|, i requires 0 <= i < |t| => t[i] * factor)
  }

  /**
   * The argument of periastron both models use: 90 degrees for a circular orbit, and only then
   * is `omega` not read at all.
   */
  function PeriastronArgument(input: map<string, Value>, ecc: real, parseText: string -> Option<Float>)
    : (r: Result<real, InputError>)
    ensures ecc == 0.0 ==> r == Ok(90.0)
    ensures ecc != 0.0 ==> r == Coerce(input, "omega", parseText)
  {
    if ecc == 0.0 then Ok(90.0) else Coerce(input, "omega", parseText)
  }

  /** A model evaluated at every sample time (the vectorised `m.light_curve(params)` and `synth_model(t)`). */
  function Sampled<P>(model: (P, real) -> real, params: P, t: seq<real>): (m: seq<real>)
    ensures |m| == |t|
    ensures forall i :: 0 <= i < |t| ==> m[i] == model(params, t[i])
  {
    seq(|t|, i requires 0 <= i < |t| => model(params, t[i]))
  }

  /** `f + sigma * noise`, element by element: one noisy observation per sample. */
  function WithNoise(f: seq<real>, sigma: real, noise: seq<real>): (y: seq<real>)
    requires |noise| == |f|
    ensures |y| == |f|
    ensures forall i :: 0 <= i < |f| ==> y[i] - f[i] == sigma * noise[i]
  {
    seq(|f|, i requires 0 <= i < |f| => f[i] + sigma * noise[i])
  }

  // ---------------------------------------------------------------------------------------
  // lightcurve

  /** The fields of a `batman.TransitParams` that `lightcurve` sets. */
  datatype TransitParams = TransitParams(
    t0: real, per: real, rp: real, a: real, inc: real, ecc: real, w: real,
    limbDark: string, u: seq<real>)

  /** The fixed nonlinear limb-darkening coefficients u1..u4. */
  const LimbDarkening: seq<real> := [0.5, 0.1, 0.1, -0.1]

  /** The `params` object that `lightcurve` fills in, field by field in the source's order. */
  function TransitSetup(input: map<string, Value>, parseText: string -> Option<Float>)
    : (r: Result<TransitParams, InputError>)
    ensures r.Ok? ==> r.value.t0 == 0.0 && r.value.limbDark == "nonlinear" && r.value.u == LimbDarkening
    ensures r.Ok? ==> && Coerce(input, "period", parseText) == Ok(r.value.per)
                      && Coerce(input, "RpRs", parseText) == Ok(r.value.rp)
                      && Coerce(input, "aRs", parseText) == Ok(r.value.a)
                      && Coerce(input, "orbinc", parseText) == Ok(r.value.inc)
                      && Coerce(input, "ecc", parseText) == Ok(r.value.ecc)
    ensures r.Ok? && r.value.ecc == 0.0 ==> r.value.w == 90.0
    ensures r.Ok? && r.value.ecc != 0.0 ==> Coerce(input, "omega", parseText) == Ok(r.value.w)
  {
    var per :- Coerce(input, "period", parseText);
    var rp :- Coerce(input, "RpRs", parseText);
    var a :- Coerce(input, "aRs", parseText);
    var inc :- Coerce(input, "orbinc", parseText);
    var ecc :- Coerce(input, "ecc", parseText);
    var w :- PeriastronArgument(input, ecc, parseText);
    Ok(TransitParams(0.0, per, rp, a, inc, ecc, w, "nonlinear", LimbDarkening))
  }

  /** The transit time grid in days: (T14 + 0.5) hours, as days, centred on mid-transit. */
  function TransitDays(t14: real): (t: seq<real>)
    ensures |t| == SampleCount
  {
    var window := (t14 + 0.5) / 24.0;
    Linspace(-window / 2.0, window / 2.0, SampleCount)
  }

  /**
   * The times `lightcurve` returns: 1000 equally spaced hours from -(T14 + 0.5)/2 to
   * +(T14 + 0.5)/2, symmetric about mid-transit.
   */
  function TransitHours(t14: real): (h: seq<real>)
    ensures |h| == SampleCount
    ensures h[0] == -(t14 + 0.5) / 2.0 && h[SampleCount - 1] == (t14 + 0.5) / 2.0
    ensures forall i :: 0 <= i < SampleCount - 1 ==> h[i + 1] - h[i] == (t14 + 0.5) / (SampleCount - 1) as real
    ensures forall i :: 0 <= i < SampleCount ==> h[SampleCount - 1 - i] == -h[i]
    ensures forall i :: 0 <= i < SampleCount ==> h[i] / 24.0 == TransitDays(t14)[i]
  {
    Scale(TransitDays(t14), 24.0)
  }

  /**
   * `lightcurve`: a window of (T14 + 0.5) hours converted to days and sampled 1000 times about
   * mid-transit, the flux there, and the flux plus `yerr_lc` times the noise. Times are
   * returned in hours.
   */
  function LightCurve(input: map<string, Value>, parseText: string -> Option<Float>,
                      flux: (TransitParams, real) -> real, noise: seq<real>)
    : (r: Result<Curves, InputError>)
    requires |noise| == SampleCount
    ensures r.Ok? <==> && TransitSetup(input, parseText).Ok?
                       && Coerce(input, "T14", parseText).Ok?
                       && Coerce(input, "yerr_lc", parseText).Ok?
    ensures r.Ok? ==> r.value.times == TransitHours(Coerce(input, "T14", parseText).value)
    ensures r.Ok? ==> |r.value.model| == |r.value.simulated| == SampleCount
    ensures r.Ok? ==> r.value.model == Sampled(flux, TransitSetup(input, parseText).value,
                                               TransitDays(Coerce(input, "T14", parseText).value))
    ensures r.Ok? ==> r.value.simulated == WithNoise(r.value.model, Coerce(input, "yerr_lc", parseText).value, noise)
  {
    var params :- TransitSetup(input, parseText);
    var t14 :- Coerce(input, "T14", parseText);
    var t := TransitDays(t14);
    var f := Sampled(flux, params, t);
    var sigma :- Coerce(input, "yerr_lc", parseText);
    Ok(Curves(Scale(t, 24.0), f, WithNoise(f, sigma, noise)))
  }

  // ---------------------------------------------------------------------------------------
  // rvcurve

  /**
   * The `radvel.Parameters` that `rvcurve` fills in (basis 'per tc e w k', one planet) with
   * the two trend terms.
   */
  datatype RvParams = RvParams(per: real, tc: real, e: real, w: real, k: real, dvdt: real, curv: real)

  /**
   * The model parameters, entry by entry in the source's order. The source tests
   * `synth_params['e1'] == 0.`, comparing the radvel `Parameter` object, not its value, with
   * zero; whether that can hold depends on radvel, which is not part of this model. The test
   * is modelled on the stored eccentricity, the rule `lightcurve` applies.
   */
  function RvSetup(input: map<string, Value>, parseText: string -> Option<Float>)
    : (r: Result<RvParams, InputError>)
    ensures r.Ok? ==> r.value.tc == 0.0 && r.value.dvdt == 0.0 && r.value.curv == 0.0
    ensures r.Ok? ==> && Coerce(input, "period", parseText) == Ok(r.value.per)
                      && Coerce(input, "ecc", parseText) == Ok(r.value.e)
                      && Coerce(input, "K", parseText).Ok?
                      && r.value.k == Coerce(input, "K", parseText).value * 1000.0
    ensures r.Ok? && r.value.e == 0.0 ==> r.value.w == 90.0
    ensures r.Ok? && r.value.e != 0.0 ==> Coerce(input, "omega", parseText) == Ok(r.value.w)
  {
    var per :- Coerce(input, "period", parseText);
    var e :- Coerce(input, "ecc", parseText);
    var w :- PeriastronArgument(input, e, parseText);
    var k :- Coerce(input, "K", parseText);
    Ok(RvParams(per, 0.0, e, w, k * 1000.0, 0.0, 0.0))
  }

  /** The RV time grid in days: one full period centred on the time of conjunction. */
  function RvTimes(period: real): (t: seq<real>)
    ensures |t| == SampleCount
    ensures t[0] == -period / 2.0 && t[SampleCount - 1] == period / 2.0
    ensures forall i :: 0 <= i < SampleCount - 1 ==> t[i + 1] - t[i] == period / (SampleCount - 1) as real
    ensures forall i :: 0 <= i < SampleCount ==> t[SampleCount - 1 - i] == -t[i]
  {
    Linspace(-period / 2.0, period / 2.0, SampleCount)
  }

  /** `(y + vsys * 1000) / 1000`: a series in m/s with the systemic velocity added, in km/s. */
  function ToKmPerSecond(y: seq<real>, vsys: real): (v: seq<real>)
    ensures |v| == |y|
    ensures forall i :: 0 <= i < |y| ==> v[i] == y[i] / 1000.0 + vsys
  {
    seq(|y|, i requires 0 <= i < |y| => (y[i] + vsys * 1000.0) / 1000.0)
  }

  /**
   * What `rvcurve` returns, in closed form: the grid, the noiseless curve
   * `(m(t) + vsys * 1000) / 1000` and the simulated one `(m(t) + yerr_rv * noise + vsys * 1000) / 1000`.
   */
  function RvCurves(input: map<string, Value>, parseText: string -> Option<Float>,
                    kepler: (RvParams, real) -> real, noise: seq<real>)
    : (r: Result<Curves, InputError>)
    requires |noise| == SampleCount
    ensures r.Ok? <==> && RvSetup(input, parseText).Ok?
                       && Coerce(input, "yerr_rv", parseText).Ok?
                       && Coerce(input, "vsys", parseText).Ok?
  {
    var per :- Coerce(input, "period", parseText);
    var params :- RvSetup(input, parseText);
    var sigma :- Coerce(input, "yerr_rv", parseText);
    var vsys :- Coerce(input, "vsys", parseText);
    var m := Sampled(kepler, params, RvTimes(per));
    Ok(Curves(RvTimes(per), ToKmPerSecond(m, vsys), ToKmPerSecond(WithNoise(m, sigma, noise), vsys)))
  }

  /** numpy's `y += d`: every element of `y` gains the matching element of `d`. */
  method AddInPlace(y: array<real>, d: seq<real>)
    requires |d| == y.Length
    modifies y
    ensures forall j :: 0 <= j < y.Length ==> y[j] == old(y[j]) + d[j]
  {
    var i := 0;
    while i < y.Length
      invariant 0 <= i <= y.Length
      invariant forall j :: 0 <= j < i ==> y[j] == old(y[j]) + d[j]
      invariant forall j :: i <= j < y.Length ==> y[j] == old(y[j])
    {
      y[i] := y[i] + d[i];
      i := i + 1;
    }
  }

  /** n copies of `c` (numpy broadcasting a scalar). */
  function Constant(n: nat, c: real): (z: seq<real>)
    ensures |z| == n && forall j :: 0 <= j < n ==> z[j] == c
  {
    seq(n, j => c)
  }

  /**
   * Lines 63-65 and the last division of line 67: `y_rv` starts as the model samples `m`,
   * gains `yerr_rv * noise` in place, then (once `vsys` converts) the systemic offset in
   * place, and is returned in km/s.
   */
  method SimulateRv(m: seq<real>, sigma: real, noise: seq<real>,
                    input: map<string, Value>, parseText: string -> Option<Float>)
    returns (r: Result<seq<real>, InputError>)
    requires |m| == |noise| == SampleCount
    ensures Coerce(input, "vsys", parseText).Err? ==> r == Err(Coerce(input, "vsys", parseText).error)
    ensures Coerce(input, "vsys", parseText).Ok? ==>
      r == Ok(ToKmPerSecond(WithNoise(m, sigma, noise), Coerce(input, "vsys", parseText).value))
  {
    var y := new real[SampleCount](j requires 0 <= j < SampleCount => m[j]);
    AddInPlace(y, Scale(noise, sigma));
    var vsys := Coerce(input, "vsys", parseText);
    if vsys.Err? {
      return Err(vsys.error);
    }
    AddInPlace(y, Constant(SampleCount, vsys.value * 1000.0));
    var yFinal := y[..];
    var simulated := seq(SampleCount, j requires 0 <= j < SampleCount => yFinal[j] / 1000.0);
    SimulatedInKmPerSecond(m, sigma, noise, vsys.value, yFinal, simulated);
    r := Ok(simulated);
  }

  /**
   * `rvcurve` as the source runs it: the conversions in the source's order, `y_rv` built in
   * place by `SimulateRv`, and the noiseless curve from a second evaluation of the model.
   */
  method RvCurve(input: map<string, Value>, parseText: string -> Option<Float>,
                 kepler: (RvParams, real) -> real, noise: seq<real>)
    returns (r: Result<Curves, InputError>)
    requires |noise| == SampleCount
    ensures r == RvCurves(input, parseText, kepler, noise)
  {
    var period := Coerce(input, "period", parseText);
    if period.Err? {
      return Err(period.error);
    }
    var t := RvTimes(period.value);
    var setup := RvSetup(input, parseText);
    if setup.Err? {
      return Err(setup.error);
    }
    var params := setup.value;
    var sigma := Coerce(input, "yerr_rv", parseText);
    if sigma.Err? {
      return Err(sigma.error);
    }
    var simulated := SimulateRv(Sampled(kepler, params, t), sigma.value, noise, input, parseText);
    if simulated.Err? {
      return Err(simulated.error);
    }
    var vsys := Coerce(input, "vsys", parseText).value;
    var model := ToKmPerSecond(Sampled(kepler, params, t), vsys);
    RvCurvesWhenConverted(input, parseText, kepler, noise);
    r := Ok(Curves(t, model, simulated.value));
  }

  /** The in-place accumulation ends where the closed form says. */
  lemma SimulatedInKmPerSecond(m: seq<real>, sigma: real, noise: seq<real>, vsys: real,
                               y: seq<real>, simulated: seq<real>)
    requires |m| == |noise| == |y| == |simulated|
    requires forall j :: 0 <= j < |y| ==> y[j] == m[j] + sigma * noise[j] + vsys * 1000.0
    requires forall j :: 0 <= j < |y| ==> simulated[j] == y[j] / 1000.0
    ensures simulated == ToKmPerSecond(WithNoise(m, sigma, noise), vsys)
  {
  }

  /** `RvCurves` once every conversion it makes succeeds. */
  lemma RvCurvesWhenConverted(input: map<string, Value>, parseText: string -> Option<Float>,
                              kepler: (RvParams, real) -> real, noise: seq<real>)
    requires |noise| == SampleCount
    requires RvSetup(input, parseText).Ok?
    requires Coerce(input, "yerr_rv", parseText).Ok? && Coerce(input, "vsys", parseText).Ok?
    ensures var params := RvSetup(input, parseText).value;
            var m := Sampled(kepler, params, RvTimes(params.per));
            var sigma := Coerce(input, "yerr_rv", parseText).value;
            var vsys := Coerce(input, "vsys", parseText).value;
            RvCurves(input, parseText, kepler, noise) ==
            Ok(Curves(RvTimes(params.per), ToKmPerSecond(m, vsys), ToKmPerSecond(WithNoise(m, sigma, noise), vsys)))
  {
  }

  /**
   * The closed form's meaning: one period of grid, the noiseless curve is the Keplerian signal
   * in km/s about `vsys`, and the simulated curve departs from it by `yerr_rv * noise / 1000`.
   */
  lemma RvCurvesProperties(input: map<string, Value>, parseText: string -> Option<Float>,
                           kepler: (RvParams, real) -> real, noise: seq<real>)
    requires |noise| == SampleCount
    requires RvCurves(input, parseText, kepler, noise).Ok?
    ensures var c := RvCurves(input, parseText, kepler, noise).value;
            var params := RvSetup(input, parseText).value;
            var vsys := Coerce(input, "vsys", parseText).value;
            var sigma := Coerce(input, "yerr_rv", parseText).value;
            && c.times == RvTimes(params.per)
            && |c.model| == |c.simulated| == SampleCount
            && (forall i :: 0 <= i < SampleCount ==> c.model[i] == kepler(params, c.times[i]) / 1000.0 + vsys)
            && (forall i :: 0 <= i < SampleCount ==> c.simulated[i] - c.model[i] == sigma * noise[i] / 1000.0)
  {
  }

  // ---------------------------------------------------------------------------------------
  // Properties shared by the two models

  /** Two inputs that differ at most in their `omega` entry. */
  predicate AgreeExceptOmega(a: map<string, Value>, b: map<string, Value>) {
    a - {"omega"} == b - {"omega"}
  }

  lemma CoerceAgrees(a: map<string, Value>, b: map<string, Value>, key: string, parseText: string -> Option<Float>)
    requires AgreeExceptOmega(a, b) && key != "omega"
    ensures Coerce(a, key, parseText) == Coerce(b, key, parseText)
  {
    assert key in a <==> key in a - {"omega"};
    assert key in b <==> key in b - {"omega"};
    if key in a {
      assert a[key] == (a - {"omega"})[key];
      assert b[key] == (b - {"omega"})[key];
    }
  }

  /** For a circular orbit `lightcurve` never reads `omega`: its value, or its absence, changes nothing. */
  lemma LightCurveIgnoresOmegaWhenCircular(
    input: map<string, Value>, other: map<string, Value>, parseText: string -> Option<Float>,
    flux: (TransitParams, real) -> real, noise: seq<real>)
    requires |noise| == SampleCount
    requires AgreeExceptOmega(input, other)
    requires Coerce(input, "ecc", parseText) == Ok(0.0)
    ensures LightCurve(input, parseText, flux, noise) == LightCurve(other, parseText, flux, noise)
  {
    forall key | key in {"period", "RpRs", "aRs", "orbinc", "ecc", "T14", "yerr_lc"}
      ensures Coerce(input, key, parseText) == Coerce(other, key, parseText)
    {
      CoerceAgrees(input, other, key, parseText);
    }
  }

  /** For a circular orbit `rvcurve` never reads `omega` either. */
  lemma RvCurvesIgnoreOmegaWhenCircular(
    input: map<string, Value>, other: map<string, Value>, parseText: string -> Option<Float>,
    kepler: (RvParams, real) -> real, noise: seq<real>)
    requires |noise| == SampleCount
    requires AgreeExceptOmega(input, other)
    requires Coerce(input, "ecc", parseText) == Ok(0.0)
    ensures RvCurves(input, parseText, kepler, noise) == RvCurves(other, parseText, kepler, noise)
  {
    forall key | key in {"period", "ecc", "K", "yerr_rv", "vsys"}
      ensures Coerce(input, key, parseText) == Coerce(other, key, parseText)
    {
      CoerceAgrees(input, other, key, parseText);
    }
  }

  /**
   * The noiseless and simulated RV curves take the systemic offset in a different order, but
   * over exact arithmetic that order does not matter: without noise they coincide.
   */
  lemma RvPathsAgreeWithoutNoise(input: map<string, Value>, parseText: string -> Option<Float>,
                                                    kepler: (RvParams, real) -> real, noise: seq<real>)
    requires |noise| == SampleCount
    requires forall i :: 0 <= i < SampleCount ==> noise[i] == 0.0
    requires RvCurves(input, parseText, kepler, noise).Ok?
    ensures RvCurves(input, parseText, kepler, noise).value.simulated ==
            RvCurves(input, parseText, kepler, noise).value.model
  {
  }
}
