# Exoplanet transit and radial-velocity forward models

A Dafny model of the computational core of a small web tool for exoplanet light curves and
radial-velocity (RV) curves:

- **Parameter resolution** (`retrieve_system_parameters` and its nested `get_parameter` in
  interactive.py). The NASA Exoplanet Archive answer is turned into a fixed parameter
  dictionary, with per-field defaults. The catalog answer is an input: either the rows that
  match the planet name, or the exception the query raised. A cell is classified by how
  Python's `float` treats it: unit-wrapped, plain, or non-numeric. A masked entry converts
  to NaN.
- **Transit forward model** (`lightcurve` in simulations.py). The `batman` parameter object
  (fixed epoch, fixed nonlinear limb darkening, periastron rule), the time window sized from
  T14, the flux samples, and the simulated observation `flux + yerr_lc * noise`.
- **RV forward model** (`rvcurve` in simulations.py). The `radvel` parameters (unit
  conversion of K, zero trend terms, periastron rule), a one-period grid, and the two output
  curves. The source builds the simulated curve in place with `+=` on an array. The method
  `RvCurve` does the same and is proved equal to the closed form `RvCurves`.
- **Plot route glue** (interactive.py, `/plot`). The route converts whatever dictionary the
  client posts. For a client that posts the resolver's dictionary back unchanged, a lemma
  shows that the model's conversions never fail on a missing key or an unconvertible value.

Modules: `Wrappers` (Option/Result), `Values` (Python floats with NaN and infinities, and
dictionary values), `Interactive`, `Simulations`, `Plot`.

The two foreign models are function parameters: batman's light curve `flux(params, t)` and
radvel's Keplerian curve `kepler(params, t)`. Both are evaluated sample by sample. The
Gaussian draws of `np.random.randn` are the input sequence `noise`, of length 1000. Python's
`float()` applied to a string is the parameter `parseText`. The forward models compute over
exact reals.

The model follows the code:
- The resolver's dictionary has 12 keys.
- A failing catalog query is not turned into defaults. Line 13 is outside every `try`, so
  `RetrieveSystemParameters` returns the failure.
- Only NaN is rejected. Infinite catalog values reach the output.
- `omega` defaults to 90.0 when the `pl_orblper` column is unusable. The resolver never
  looks at the eccentricity.

## Model

| member | source | states |
|---|---|---|
| `Interactive.GetParameter` | interactive.py:16-35 | With anything other than exactly one row, the result is the default. Otherwise it is the default, or a non-NaN number that the column's cell holds in wrapped or plain form. It is never NaN unless the default is. |
| `Interactive.GetParameterReturnsCatalogNumber` | interactive.py:18-30 | A usable cell is returned unchanged, in either form. Usable means one row, the column present, the value converts and is not NaN; an infinity is usable, since only `isnan` is tested. |
| `Interactive.GetParameterFallsBack` | interactive.py:18-35 | Every unusable case gives the default: zero or several rows, missing column, value that does not convert, NaN from either path. |
| `Interactive.RetrieveSystemParameters` | interactive.py:11-95 | A failed query is returned as a failure. Otherwise: `planet_name` is the identifier unchanged, `yerr_lc` is 4e-3, `yerr_rv` is 10, and no number is NaN. |
| `Interactive.AsDict` | interactive.py:71-95 | The dictionary has exactly the keys planet_name, period, ecc, omega, aRs, orbinc, RpRs, K, vsys, T14, yerr_lc, yerr_rv. Each key holds its record field. |
| `Interactive.ResolvedFieldsFollowTheirColumns` | interactive.py:39-50 | Each field is its column's catalog number when usable, else its default. Every default is 0.0 except omega, which is 90.0. `K` is `pl_rvamp`/1000. `vsys` is `st_radv` unscaled. |
| `Interactive.NoSingleMatchGivesDefaults` | interactive.py:31-50 | With zero or several matching rows, the output is the all-defaults record. |
| `Interactive.OmegaIgnoresEccentricity` | interactive.py:45-46 | `omega` depends on the `pl_orblper` cell alone, whatever the eccentricity. |
| `Interactive.UnusedColumnsIgnored` | interactive.py:38-95 | Removing the planet mass, semi-major axis and stellar mass columns leaves the output unchanged. |
| `Values.DivThousand` | interactive.py:47 | The float division by 1000: finite stays finite with `r * 1000 == x`, NaN stays NaN, an infinity is unchanged. |
| `Values.ToFloat` | simulations.py:13-17 | `float()` of a float is that float. Of an int, it is the same number when the magnitude is below 2^1024 - 2^970, and fails (OverflowError) otherwise. |
| `Simulations.Coerce` | simulations.py:13-17 | `float(input_values[key])` succeeds exactly when the key is present and converts to a finite number, and then yields it. A missing key is reported as such, under that key. |
| `Simulations.Linspace` | simulations.py:28 | `linspace` gives n samples, starts at `start`, ends at `stop`, and is equally spaced by (stop-start)/(n-1). It is symmetric about 0 when start = -stop. |
| `Simulations.Scale` | simulations.py:37 | Each sample is multiplied by the factor, with the same length. |
| `Simulations.PeriastronArgument` | simulations.py:21-25 | A circular orbit (ecc = 0) gets 90 degrees, whatever `omega` is. Otherwise the converted `omega` is used. |
| `Simulations.TransitSetup` | simulations.py:11-25 | t0 is 0, the law is "nonlinear", and the coefficients are [0.5, 0.1, 0.1, -0.1]. per, rp, a, inc and ecc are the converted inputs. w is 90 when ecc = 0, else the converted omega. |
| `Simulations.TransitDays` | simulations.py:27-28 | The transit grid in days has 1000 samples. |
| `Simulations.TransitHours` | simulations.py:27-37 | The returned times run over 1000 hours-valued samples, from -(T14+0.5)/2 to +(T14+0.5)/2. They are equally spaced by (T14+0.5)/999 and symmetric about 0. Each is 24 times the day grid. |
| `Simulations.Sampled` | simulations.py:30-31 | The model is evaluated once per sample time, with the same length. |
| `Simulations.WithNoise` | simulations.py:34-35 | The simulated series exceeds the model by `sigma * noise[i]` at every sample, with the same length. |
| `Simulations.LightCurve` | simulations.py:9-37 | The result is a curve exactly when setup, `T14` and `yerr_lc` all convert; otherwise there is no partial curve. Times are `TransitHours(T14)`. The flux is batman at the day grid. The simulated flux is flux + `yerr_lc`·noise. |
| `Simulations.RvSetup` | simulations.py:45-58 | tc, dvdt and curv are 0, and k is K·1000. per and e are the converted inputs. w is 90 when e = 0, else the converted omega. |
| `Simulations.RvTimes` | simulations.py:43 | The RV grid has 1000 samples from -period/2 to +period/2 days. It is equally spaced by period/999 and symmetric about 0. |
| `Simulations.ToKmPerSecond` | simulations.py:65-67 | `(y + vsys·1000)/1000` equals `y/1000 + vsys` at every sample. |
| `Simulations.RvCurves` | simulations.py:41-67 | The closed form succeeds exactly when the setup, `yerr_rv` and `vsys` all convert. |
| `Simulations.RvCurvesProperties` | simulations.py:43-67 | The times are one period of grid. The noiseless curve is kepler/1000 + vsys. The simulated curve differs from it by `yerr_rv·noise/1000` per sample. |
| `Simulations.AddInPlace` | simulations.py:64-65 | `y += d` adds `d[j]` to each element of the array in place. |
| `Simulations.SimulateRv` | simulations.py:62-67 | The array starts as the model samples, gains `yerr_rv`·noise in place, then the `vsys`·1000 offset in place, and divided by 1000 it is `(m + yerr_rv·noise + vsys·1000)/1000`. A `vsys` that does not convert gives that error. |
| `Simulations.RvCurve` | simulations.py:41-67 | The in-place computation (model on the grid, `+=` noise, `+=` offset, `/1000`), with the source's order of conversions, returns exactly the closed form `RvCurves`. |
| `Simulations.SimulatedInKmPerSecond` | simulations.py:63-67 | After both in-place additions, dividing by 1000 gives `(m + yerr_rv·noise + vsys·1000)/1000`. |
| `Simulations.LightCurveIgnoresOmegaWhenCircular` | simulations.py:22-25 | When ecc converts to 0, changing or removing `omega` leaves `lightcurve`'s result unchanged. |
| `Simulations.RvCurvesIgnoreOmegaWhenCircular` | simulations.py:50-53 | When ecc converts to 0, changing or removing `omega` leaves `rvcurve`'s result unchanged. |
| `Simulations.RvPathsAgreeWithoutNoise` | simulations.py:62-67 | With all-zero noise, the two differently ordered RV paths give the same curve. |
| `Plot.ResolvedParametersFeedBothModels` | interactive.py:118-125 | For a client that posts the resolver's dictionary back unchanged: the model of either forward model never fails on a missing key or a non-numeric value. Its only possible failure is the model-only `NonFinite`, for an infinity taken over from the catalog (Python's `float` accepts it). With all values finite, both model results are curves. |
| `Plot.NoMatchWindows` | interactive.py:118-125 | For the all-defaults dictionary posted back unchanged, both model results are curves. The transit times run from -0.25 to +0.25 hours. The RV grid is all zeros (period 0). |

## Left out

- The Flask routes, request parsing, JSON encoding and plotly figure building (interactive.py:98-210). These are web and presentation glue. Only the hand-over from resolver to models is stated, in `Plot`.
- The catalog query (interactive.py:13). This is network I/O. Its answer, or the exception it raises, is an input.
- The informational `print` on a caught failure (interactive.py:34), and the commented-out code.
- `Interactive.GetParameter`: an exception that `float()` may raise outside KeyError, ValueError and TypeError is not modelled. Such an exception would escape the resolver; an example is OverflowError on a huge integer cell.
- The transit geometry inside batman and the Keplerian solver inside radvel. These are foreign libraries not shown here. They are uninterpreted function parameters, so properties such as the dip below 1.0 at mid-transit or a flat curve at RpRs = 0 are not modelled.
- `np.random.randn`: randomness is replaced by the explicit `noise` input, of length 1000.
- IEEE rounding in `linspace` and in the ×24, ×1000 and ÷1000 conversions. The forward models compute over exact reals.
- `Simulations.Coerce`: a NaN or infinite input yields the model-only error `NonFinite(key)`. numpy would instead propagate NaN or infinity into the curves.
- `Simulations.RvSetup`: the source tests `synth_params['e1'] == 0.`, which compares the radvel `Parameter` object itself with 0. Whether that can hold depends on radvel, which is not part of this model. The test is modelled on the stored eccentricity, the same rule `lightcurve` applies at simulations.py:22-25.
- `Values.ToFloat`: the conversion of a string by Python's `float()` is not modelled. Its outcome is the parameter `parseText`. An int above 2^53 in magnitude converts to its exact value here, where Python rounds it to the nearest double.
- `Simulations.RvCurvesIgnoreOmegaWhenCircular`: holds for the modelled test on the stored eccentricity. If radvel's `Parameter` does not compare equal to the float `0.`, simulations.py:50 is always false: line 53 then reads `omega` for every eccentricity, and a missing `omega` raises KeyError even when ecc = 0.
- `Plot.ResolvedParametersFeedBothModels`, `Plot.NoMatchWindows`: batman and radvel are total function parameters, assumed never to raise. For the all-defaults record they are called with period 0 and a = rp = inc = 0, and what those libraries do there is not part of this model. The `/plot` route receives the client's JSON (interactive.py:120), not the resolver's dictionary (returned to the client at interactive.py:111); the lemmas assume the client posts that dictionary back unchanged.
