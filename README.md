# skyrandoms in Dafny

A model of the core of `skyrandoms`, a small package that draws points
uniformly at random on the celestial sphere inside an axis-aligned box of
right ascension (ra) and declination (dec), all in degrees.

- `pybuiltins.dfy` (module `PyBuiltins`): the Python pieces the code relies on.
  These are `int()` on a float (truncation toward zero), `round(x, 0)` (round
  half to even), and the exceptions raised (`AssertionError`, `ValueError`,
  `IndexError`) as a `Result`/`Outcome` error value.
- `angles.dfy` (module `Angles`): `np.pi`, `np.deg2rad`, `np.rad2deg`, and
  sine/arcsine. `np.pi` is the constant `Pi = 3.141592653589793`, the
  shortest decimal of the double numpy uses. Sine and arcsine cannot be
  defined exactly, so they are a pair of `real -> real` functions (`Trig`).
  The lemmas that need them require `Lawful(t)`:
  - sine is monotone on [-pi/2, pi/2];
  - sin 0 = 0 and sin(+-pi/2) = +-1;
  - arcsin(sin x) = x on [-pi/2, pi/2];
  - arcsine is monotone on [-1, 1].
  `LinearTrigLawful` shows that these laws can all hold at once.
- `utils.dfy` (module `Utils`): `solid_angle`, `random_radec` and
  `check_random_state` from `skyrandoms/utils.py`. A numpy `RandomState` is a
  value `Rng(draws, pos)`: the endless sequence of doubles in [0, 1) that its
  `uniform()` yields, plus how many have been used. `uniform(size=n)` returns
  the next n draws and moves `pos` on by n. Limit lists are two-element
  `Lim(lo, hi)` values.
- `core.dfy` (module `Core`): the `SkyRandoms` class of `skyrandoms/core.py`.
  It has the fields `_ralim`, `_declim`, `rng` and the `_area` cache. The two
  setters check their limits, `area` fills the cache on first read, and
  `draw_randoms` runs the sampler on the object's own generator.

Three behaviours of the code are worth knowing:
- The ra setter does not reject inverted limits (`lim[0] > lim[1]`). Then
  `random_radec` draws ra from [ra0, 2 ra0 - ra1), outside the box
  (`InvertedRaEscapes`).
- The setters never clear `_area`. Once `area` has been read, it keeps
  returning the old value after the limits change (`StaleAreaAfterNewLimits`).
- Sampled points lie inside the box only when the limits are in order
  (`RaDrawsWithinLimits`, `DecDrawsWithinLimits` require it).

## Model

| member | source | states |
|---|---|---|
| PyBuiltins.Trunc | skyrandoms/utils.py:63-64 | `int(npoints)`: the result is the integer part of x, toward zero, for both signs |
| PyBuiltins.RoundHalfEven | skyrandoms/core.py:44 | `round(x, 0)`: the result is within 1/2 of x, and even when exactly 1/2 away |
| PyBuiltins.RoundHalfEvenUnique | skyrandoms/core.py:44 | any integer within 1/2 of x, even on a tie, is `round(x, 0)`: the contract pins the rounding down |
| PyBuiltins.TruncOfWhole | skyrandoms/core.py:44-46 | `int()` of a rounded count is that count |
| Angles.Deg2Rad | skyrandoms/utils.py:26-27 | `np.deg2rad`: rad2deg takes the result back to the argument |
| Angles.Rad2Deg | skyrandoms/utils.py:66 | `np.rad2deg`: scaling the result by pi/180 gives the argument back |
| Angles.DegRadRoundTrip | skyrandoms/utils.py:59-66 | `rad2deg(deg2rad(x)) == x` and the converse, over the reals |
| Utils.SolidAngle | skyrandoms/utils.py:26-30 | `solid_angle`: the area equals the ra span in degrees times (sin dec1 - sin dec0) times 180/pi |
| Utils.WholeSphereArea | skyrandoms/utils.py:26-30 | [0,360] x [-90,90] has area 4 pi (180/pi)^2 = 129600/pi |
| Utils.OctantArea | skyrandoms/utils.py:26-30 | [0,90] x [0,90] has one eighth of the whole-sphere area |
| Utils.SwapRaLimits | skyrandoms/utils.py:28-29 | swapping the ra limits leaves the area unchanged (ptp) |
| Utils.SwapDecLimits | skyrandoms/utils.py:28-29 | swapping the dec limits negates the area (signed sine difference) |
| Utils.SinSpanNested | skyrandoms/utils.py:28 | for nested ordered dec intervals in [-90,90], the sine difference is non-negative and grows |
| Utils.SolidAngleMonotone | skyrandoms/utils.py:28-29 | with ordered dec limits in [-90,90] the area is >= 0 and grows with the ra span and the dec interval |
| Utils.Uniform | skyrandoms/utils.py:63-64 | `rng.uniform(size=n)` yields the next n draws of the generator and advances it by n |
| Utils.RandomRaDecWith | skyrandoms/utils.py:59-66 | fails exactly when `int(npoints) < 0`; else both arrays have `int(npoints)` entries, draws `pos..pos+n-1` feed dec and `pos+n..pos+2n-1` feed ra, and the generator advances by 2n |
| Utils.ZFromUniform | skyrandoms/utils.py:62-63 | for u in [0,1), z = sin dec0 + ptp(sin) u lies in [sin dec0, sin dec0 + ptp(sin)], below the top unless the two sines are equal |
| Utils.DecFromUniform | skyrandoms/utils.py:60-66 | the dec from u, arcsin(z) in degrees, lies in [dec0, dec1] for u in [0,1) and -90 <= dec0 <= dec1 <= 90 |
| Utils.RaFromUniform | skyrandoms/utils.py:59-66 | the ra from draw u, computed in radians and converted back, is `ra0 + ptp(ra) * u` in degrees |
| Utils.RaFromFirstLimit | skyrandoms/utils.py:64 | the ra from u in [0,1) lies in [ra0, ra0 + ptp(ra)), whichever limit is larger |
| Utils.RaWithin | skyrandoms/utils.py:64-66 | with ra0 <= ra1 the ra from u in [0,1) lies in [ra0, ra1], below ra1 unless the span is empty |
| Utils.InvertedRaEscapes | skyrandoms/utils.py:64 | with ra0 > ra1 the ra from u in [0,1) lies in [ra0, 2 ra0 - ra1), outside the box |
| Utils.RaDrawsWithinLimits | skyrandoms/utils.py:59-66 | every returned ra lies in [ra0, ra1] when ra0 <= ra1 and the draws are in [0,1) |
| Utils.ZWithin | skyrandoms/utils.py:62-63 | with -90 <= dec0 <= dec1 <= 90, z = sin dec0 + ptp(sin) u lies in [sin dec0, sin dec1] |
| Utils.DecWithin | skyrandoms/utils.py:60-66 | the dec rad2deg(arcsin z) from u in [0,1) lies in [dec0, dec1] when -90 <= dec0 <= dec1 <= 90 |
| Utils.DecDrawsWithinLimits | skyrandoms/utils.py:60-66 | every returned dec lies in [dec0, dec1] when -90 <= dec0 <= dec1 <= 90 |
| Utils.CheckRandomState | skyrandoms/utils.py:91-102 | None or `np.random` gives the global generator; an integral seed or a list headed by an int gives a freshly seeded one; a RandomState is returned as is; an empty list raises IndexError; ValueError is raised exactly for any other object and for a list headed by a non-int |
| Utils.RandomRaDec | skyrandoms/utils.py:58-66 | the seed is checked first and its error is returned; otherwise the result is the sampler run on the generator the seed gives |
| Utils.SameSeedSamePoints | skyrandoms/utils.py:93-94 | the same integer seed gives the same points, whatever state the global generator is in |
| Core.RequestedPoints | skyrandoms/core.py:42-44 | with a density, the count asked for is a whole number within 1/2 of density * area, even on a tie (`round(x, 0)`) |
| Core.PointCount | skyrandoms/core.py:42-44 | with a density the point count is `round(density * area)`; without one it is `int(npoints)` |
| Core.RaLimAccepted | skyrandoms/core.py:30 | the ra setter's check; limits that pass and are in order lie in [0,360] and span at most 360 degrees |
| Core.DecLimAccepted | skyrandoms/core.py:39 | the dec setter's check; limits that pass and are in order lie in [-pi/2, pi/2] radians, the range the sine laws cover |
| Core.SkyRandoms.Create | skyrandoms/core.py:12-16 | construction fails with the ra assertion, then the dec assertion, then the seed error, in that order; on success the limits equal the arguments, `rng` is what the seed gives, and the cache is empty |
| Core.SkyRandoms.SetRalim | skyrandoms/core.py:28-31 | rejects `lim[0] < 0` or `lim[1] > 360`, leaving `_ralim` unchanged; otherwise stores lim; never touches the cache |
| Core.SkyRandoms.SetDeclim | skyrandoms/core.py:37-40 | rejects `lim[0] < -90` or `lim[1] > 90`, leaving `_declim` unchanged; otherwise stores lim; never touches the cache |
| Core.SkyRandoms.Area | skyrandoms/core.py:18-22 | the first read stores and returns the solid angle of the current limits; later reads return the stored value |
| Core.SkyRandoms.DrawRandoms | skyrandoms/core.py:42-47 | with a density, reads `area` (filling the cache) and asks for `round(density * area)` points; the result is random_radec on the object's generator, which advances by twice the point count; on failure it is unchanged; an object whose limits passed the setters' checks and are each in order, with draws in [0,1), yields points inside its box |
| Core.DefaultDrawIsOnePoint | skyrandoms/core.py:42 | `draw_randoms()` with its default `npoints=1` and no density yields one ra and one dec |
| Core.WholeSphereCount | skyrandoms/core.py:42-44 | density 1 over the whole sky gives round(129600/pi) = 41253 points |
| Core.WholeSkyDensityOne | skyrandoms/tests/test_core.py:6-9 | `SkyRandoms([0,360],[-90,90]).draw_randoms(density=1)` returns 41253 ra and 41253 dec values |
| Core.QuarterSky | skyrandoms/utils.py:26-30 | [0,90] x [-90,90] has a quarter of the whole-sphere area |
| Core.StaleAreaAfterNewLimits | skyrandoms/core.py:19-22 | after `area` is read on the whole sky and ra is set to [0,90], `area` still returns 129600/pi, not the new quarter-sky area |
| Core.DrawTwice | skyrandoms/core.py:45-46 | two successive draws read successive stretches of the object's one generator |

## Left out

- The randoms database (`SkyRandomsDatabase`: id assignment, chunked insertion, region queries, detection flags, total-area bookkeeping) is not part of this model; its source is not among the files modelled.
- `scripts/make-hsc-hugs-randoms.py` (argument parsing, printing, file paths), `skyrandoms/footprints.py` (static region table) and `setup.py` (packaging).
- Floating point: all arithmetic is over the reals, so results are exact where numpy rounds. NaN and infinity are not modelled.
- Sine and arcsine are constrained only by the laws in `Lawful`. Arcsine outside [-1, 1] is unconstrained. Inverted or out-of-range dec limits can push z there, where numpy gives NaN.
- numpy's Mersenne Twister: the doubles a generator yields, and the generator each seed key produces (`RngEnv.seeded`), are parameters. numpy's own errors for negative or oversized seeds are not modelled.
- A `RandomState` is modelled as a value. Sharing one generator object between a `SkyRandoms` and its caller, or with numpy's global singleton, is not modelled: draws through one alias do not advance the other.
- Utils.CheckRandomState: Python values are reduced to the `Seed` cases. A bool is an integral seed, and a list is recognised by its first element only. Exception messages are fixed strings, and the `ValueError` text does not include the seed's repr.
- Limits are two-element lists. `ptp()` over longer arrays, and the elements after the second, are not modelled.
- The default arguments of `random_radec` and `SkyRandoms(...)` are not modelled; callers pass every argument. `draw_randoms`'s default is passed as `npoints = 1.0` (`DefaultDrawIsOnePoint`).
- Rounding follows Python 3, where `round(x, 0)` rounds half to even. Under Python 2, which the script's interpreter line points at (`scripts/make-hsc-hugs-randoms.py:1`), `round` rounds half away from zero, so an exact tie gives a count one higher or lower.
- Limit arrays shared with the caller: the setters keep `lim` itself, and `np.asarray` in `__init__` returns the caller's array when it already is one, so a caller who changes that array later changes the limits without the setters' checks. `Lim` is a value, so this sharing is not modelled.
- The `ralim` and `declim` getters are plain field reads.
- Under `python -O` the setters' `assert` statements are skipped. That mode is not modelled.
- The unused `astropy` import.
- The `test_random_radec` test, which indexes the returned tuple by string and expects strict lower bounds that u in [0, 1) does not give.
