/** skyrandoms/utils.py: the solid angle of an ra/dec box, the uniform
    sampler on the sphere, and the dispatch that turns a seed into a
    random-number generator. All angles are in degrees. */
module Utils {
  import opened PyBuiltins
  import opened Angles

  /** A two-element limit list `[lim[0], lim[1]]`, in degrees. */
  datatype Lim = Lim(lo: real, hi: real)

  /** `ptp()` of a two-element array: its maximum minus its minimum. */
  function Ptp(a: real, b: real): (r: real)
    ensures 0.0 <= r
  {
    if a <= b then b - a else a - b
  }

  // ---------------------------------------------------------------------
  // solid_angle
  // ---------------------------------------------------------------------

  /** `solid_angle(ralim, declim)`: the ra span in radians times the
      difference of the sines of the dec limits, times (180/pi)^2. The dec
      factor is signed; the ra factor is not. With the ra factor taken back
      to degrees, the area is the ra span in degrees times the sine
      difference times 180/pi. */
  function SolidAngle(t: Trig, ralim: Lim, declim: Lim): (r: real)
    ensures r == Ptp(ralim.lo, ralim.hi) * SinSpan(t, declim) * (180.0 / Pi)
  {
    var p := Ptp(ralim.lo, ralim.hi);
    var d := SinSpan(t, declim);
    assert Ptp(Deg2Rad(ralim.lo), Deg2Rad(ralim.hi)) == p * Pi / 180.0;
    assert (p * Pi / 180.0) * d * (180.0 / Pi) * (180.0 / Pi) == p * d * (180.0 / Pi);
    Ptp(Deg2Rad(ralim.lo), Deg2Rad(ralim.hi)) * d * (180.0 / Pi) * (180.0 / Pi)
  }

  /** `sin(declim[1]) - sin(declim[0])`, the limits taken to radians. */
  function SinSpan(t: Trig, declim: Lim): real
  {
    t.sin(Deg2Rad(declim.hi)) - t.sin(Deg2Rad(declim.lo))
  }

  /** The whole sky, ra in [0, 360] and dec in [-90, 90], is 4 pi steradians,
      that is 4 pi (180/pi)^2 = 129600/pi square degrees. */
  lemma WholeSphereArea(t: Trig)
    requires Lawful(t)
    ensures SolidAngle(t, Lim(0.0, 360.0), Lim(-90.0, 90.0)) == 4.0 * Pi * (180.0 / Pi) * (180.0 / Pi)
    ensures SolidAngle(t, Lim(0.0, 360.0), Lim(-90.0, 90.0)) == 129600.0 / Pi
  {
    assert Deg2Rad(90.0) == Pi / 2.0 && Deg2Rad(-90.0) == -Pi / 2.0;
  }

  /** The octant ra in [0, 90], dec in [0, 90] is an eighth of the sky. */
  lemma OctantArea(t: Trig)
    requires Lawful(t)
    ensures SolidAngle(t, Lim(0.0, 90.0), Lim(0.0, 90.0))
         == SolidAngle(t, Lim(0.0, 360.0), Lim(-90.0, 90.0)) / 8.0
  {
    WholeSphereArea(t);
    assert Deg2Rad(90.0) == Pi / 2.0 && Deg2Rad(0.0) == 0.0;
  }

  /** Swapping the two ra limits leaves the area alone (ptp is symmetric). */
  lemma SwapRaLimits(t: Trig, ralim: Lim, declim: Lim)
    ensures SolidAngle(t, Lim(ralim.hi, ralim.lo), declim) == SolidAngle(t, ralim, declim)
  {
  }

  /** Swapping the two dec limits negates the area (the sine difference is
      signed). */
  lemma SwapDecLimits(t: Trig, ralim: Lim, declim: Lim)
    ensures SolidAngle(t, ralim, Lim(declim.hi, declim.lo)) == -SolidAngle(t, ralim, declim)
  {
  }

  /** Multiplying non-negative factors by larger ones does not shrink the
      product, and a positive constant factor keeps the order. */
  lemma ProductMonotone(a: real, b: real, a': real, b': real, c: real)
    requires 0.0 <= a <= a' && 0.0 <= b <= b' && 0.0 < c
    ensures 0.0 <= a * b * c <= a' * b' * c
  {
    assert a * b <= a' * b;
    assert a' * b <= a' * b';
    assert 0.0 <= a * b;
  }

  /** x = lo + p * u for a span p >= 0 and u in [0, 1) lies in [lo, lo + p],
      and below lo + p when the span is positive. */
  lemma AffineBounds(lo: real, p: real, u: real, x: real)
    requires x == lo + p * u && 0.0 <= p && 0.0 <= u < 1.0
    ensures lo <= x <= lo + p
    ensures 0.0 < p ==> x < lo + p
  {
    ScaledDraw(p, u);
  }

  /** A span scaled by a draw u in [0, 1) stays within the span, and below
      it when the span is positive. */
  lemma ScaledDraw(p: real, u: real)
    requires 0.0 <= p && 0.0 <= u < 1.0
    ensures 0.0 <= p * u <= p
    ensures 0.0 < p ==> p * u < p
  {
  }

  /** Sine difference of two dec limits in order inside [-90, 90]: it is
      non-negative and grows as the interval widens. */
  lemma SinSpanNested(t: Trig, declim: Lim, declim': Lim)
    requires Lawful(t)
    requires -90.0 <= declim'.lo <= declim.lo <= declim.hi <= declim'.hi <= 90.0
    ensures 0.0 <= SinSpan(t, declim) <= SinSpan(t, declim')
  {
    var x0, x1 := Deg2Rad(declim.lo), Deg2Rad(declim.hi);
    var y0, y1 := Deg2Rad(declim'.lo), Deg2Rad(declim'.hi);
    DecInRadians(declim'.lo);
    DecInRadians(declim'.hi);
    ConversionsMonotone(declim'.lo, declim.lo);
    ConversionsMonotone(declim.lo, declim.hi);
    ConversionsMonotone(declim.hi, declim'.hi);
    assert t.sin(y0) <= t.sin(x0);
    assert t.sin(x0) <= t.sin(x1);
    assert t.sin(x1) <= t.sin(y1);
  }

  /** Areas are ordered as their ra spans and sine spans are. */
  lemma SolidAngleOrdered(t: Trig, ralim: Lim, declim: Lim, ralim': Lim, declim': Lim)
    requires 0.0 <= SinSpan(t, declim) <= SinSpan(t, declim')
    requires Ptp(ralim.lo, ralim.hi) <= Ptp(ralim'.lo, ralim'.hi)
    ensures 0.0 <= SolidAngle(t, ralim, declim) <= SolidAngle(t, ralim', declim')
  {
    ProductMonotone(Ptp(ralim.lo, ralim.hi), SinSpan(t, declim),
                    Ptp(ralim'.lo, ralim'.hi), SinSpan(t, declim'), 180.0 / Pi);
  }

  /** For dec limits in order inside [-90, 90], the area is non-negative, and
      it grows when the ra span widens or the dec interval widens. */
  lemma SolidAngleMonotone(t: Trig, ralim: Lim, declim: Lim, ralim': Lim, declim': Lim)
    requires Lawful(t)
    requires -90.0 <= declim'.lo <= declim.lo <= declim.hi <= declim'.hi <= 90.0
    requires Ptp(ralim.lo, ralim.hi) <= Ptp(ralim'.lo, ralim'.hi)
    ensures 0.0 <= SolidAngle(t, ralim, declim) <= SolidAngle(t, ralim', declim')
  {
    SinSpanNested(t, declim, declim');
    SolidAngleOrdered(t, ralim, declim, ralim', declim');
  }

  // ---------------------------------------------------------------------
  // The random-number generator and random_radec
  // ---------------------------------------------------------------------

  /** A numpy `RandomState`, seen as the endless sequence of doubles its
      `uniform()` produces and the number of them already drawn. */
  datatype Rng = Rng(draws: nat -> real, pos: nat)

  /** Every draw of the generator lies in [0, 1). */
  ghost predicate UnitDraws(g: Rng)
  {
    forall i: nat :: 0.0 <= g.draws(i) < 1.0
  }

  /** `rng.uniform(size=n)`: the next n draws, and the generator advanced
      past them. */
  function Uniform(g: Rng, n: nat): (r: (seq<real>, Rng))
    ensures |r.0| == n
    ensures forall i :: 0 <= i < n ==> r.0[i] == g.draws(g.pos + i)
    ensures r.1 == Rng(g.draws, g.pos + n)
  {
    (seq(n, i requires 0 <= i < n => g.draws(g.pos + i)), Rng(g.draws, g.pos + n))
  }

  /** The two arrays `random_radec` returns, and the generator after it. */
  datatype Draws = Draws(ra: seq<real>, dec: seq<real>, rest: Rng)

  /** z = sin(dec0) + ptp(sin(dec0), sin(dec1)) * u: the sine of the dec
      drawn from u. */
  function ZFromUniform(t: Trig, declim: Lim, u: real): (r: real)
    ensures var z0, z1 := t.sin(Deg2Rad(declim.lo)), t.sin(Deg2Rad(declim.hi));
            0.0 <= u < 1.0 ==> z0 <= r <= z0 + Ptp(z0, z1) && (z0 != z1 ==> r < z0 + Ptp(z0, z1))
  {
    var z0, z1 := t.sin(Deg2Rad(declim.lo)), t.sin(Deg2Rad(declim.hi));
    var z := z0 + Ptp(z0, z1) * u;
    if 0.0 <= u < 1.0 then AffineBounds(z0, Ptp(z0, z1), u, z); z else z
  }

  /** The dec drawn from u: arcsin of z, back in degrees. Under the sine
      laws, for u in [0, 1) and dec limits in order inside [-90, 90], it
      lies between the limits. */
  function DecFromUniform(t: Trig, declim: Lim, u: real): (r: real)
    ensures Lawful(t) && 0.0 <= u < 1.0 && -90.0 <= declim.lo <= declim.hi <= 90.0 ==>
              declim.lo <= r <= declim.hi
  {
    var d := Rad2Deg(t.arcsin(ZFromUniform(t, declim, u)));
    DecWithin(t, declim, u, d);
    d
  }

  /** ra0 + ptp(ra) * u, computed in radians and converted back. Over the
      reals the round trip cancels, so it is ra0 + ptp(ra) * u in degrees. */
  function RaFromUniform(ralim: Lim, u: real): (r: real)
    ensures r == ralim.lo + Ptp(ralim.lo, ralim.hi) * u
  {
    var ra0, ra1 := Deg2Rad(ralim.lo), Deg2Rad(ralim.hi);
    var p := Ptp(ralim.lo, ralim.hi);
    assert Ptp(ra0, ra1) == Deg2Rad(p);
    assert ra0 + Deg2Rad(p) * u == Deg2Rad(ralim.lo + p * u);
    DegRadRoundTrip(ralim.lo + p * u);
    Rad2Deg(ra0 + Ptp(ra0, ra1) * u)
  }

  /** `random_radec(npoints, ralim, declim, random_state)` once
      `check_random_state` has produced the generator g: `int(npoints)`
      draws feed the dec values, the next `int(npoints)` the ra values.
      numpy refuses a negative size before drawing anything. */
  function RandomRaDecWith(t: Trig, npoints: real, ralim: Lim, declim: Lim, g: Rng): (r: Result<Draws, PyError>)
    ensures r.Success? <==> 0 <= Trunc(npoints)
    ensures r.Success? ==>
              && |r.value.ra| == Trunc(npoints)
              && |r.value.dec| == Trunc(npoints)
              && r.value.rest == Rng(g.draws, g.pos + 2 * Trunc(npoints))
    ensures r.Success? ==>
              forall i :: 0 <= i < Trunc(npoints) ==>
                && r.value.dec[i] == DecFromUniform(t, declim, g.draws(g.pos + i))
                && r.value.ra[i] == RaFromUniform(ralim, g.draws(g.pos + Trunc(npoints) + i))
  {
    var n := Trunc(npoints);
    if n < 0 then
      Failure(ValueError("negative dimensions are not allowed"))
    else
      var (u1, g1) := Uniform(g, n);
      var (u2, g2) := Uniform(g1, n);
      var ra := seq(n, i requires 0 <= i < n => RaFromUniform(ralim, u2[i]));
      var dec := seq(n, i requires 0 <= i < n => DecFromUniform(t, declim, u1[i]));
      Success(Draws(ra, dec, g2))
  }

  /** The ra drawn from u in [0, 1) lies in [ra0, ra0 + ptp(ra)): it starts
      at the first limit whichever limit is larger. */
  lemma RaFromFirstLimit(ralim: Lim, u: real)
    requires 0.0 <= u < 1.0
    ensures ralim.lo <= RaFromUniform(ralim, u) <= ralim.lo + Ptp(ralim.lo, ralim.hi)
    ensures 0.0 < Ptp(ralim.lo, ralim.hi) ==> RaFromUniform(ralim, u) < ralim.lo + Ptp(ralim.lo, ralim.hi)
  {
    AffineBounds(ralim.lo, Ptp(ralim.lo, ralim.hi), u, RaFromUniform(ralim, u));
  }

  /** With ra0 <= ra1, the ra drawn from u in [0, 1) lies in [ra0, ra1],
      and below ra1 unless the span is empty. */
  lemma RaWithin(ralim: Lim, u: real)
    requires 0.0 <= u < 1.0 && ralim.lo <= ralim.hi
    ensures ralim.lo <= RaFromUniform(ralim, u) <= ralim.hi
    ensures ralim.lo < ralim.hi ==> RaFromUniform(ralim, u) < ralim.hi
  {
    RaFromFirstLimit(ralim, u);
  }

  /** With ra0 > ra1, which the ra setter lets through, the ra drawn from u
      is at least ra0 and below 2 ra0 - ra1: it leaves the box [ra1, ra0]
      except at its corner ra0. */
  lemma InvertedRaEscapes(ralim: Lim, u: real)
    requires 0.0 <= u < 1.0 && ralim.hi < ralim.lo
    ensures ralim.lo <= RaFromUniform(ralim, u) < 2.0 * ralim.lo - ralim.hi
  {
    RaFromFirstLimit(ralim, u);
  }

  /** Every ra that random_radec returns lies in [ra0, ra1] when ra0 <= ra1,
      and below ra1 unless the span is empty. */
  lemma RaDrawsWithinLimits(t: Trig, npoints: real, ralim: Lim, declim: Lim, g: Rng)
    requires UnitDraws(g) && ralim.lo <= ralim.hi
    ensures var r := RandomRaDecWith(t, npoints, ralim, declim, g);
            r.Success? ==>
              forall i :: 0 <= i < |r.value.ra| ==>
                && ralim.lo <= r.value.ra[i] <= ralim.hi
                && (ralim.lo < ralim.hi ==> r.value.ra[i] < ralim.hi)
  {
    var r := RandomRaDecWith(t, npoints, ralim, declim, g);
    if r.Success? {
      var n := Trunc(npoints);
      forall i | 0 <= i < |r.value.ra|
        ensures ralim.lo <= r.value.ra[i] <= ralim.hi
        ensures ralim.lo < ralim.hi ==> r.value.ra[i] < ralim.hi
      {
        RaWithin(ralim, g.draws(g.pos + n + i));
      }
    }
  }

  /** The dec d drawn from one uniform u in [0, 1) lies within the dec limits
      when -90 <= dec0 <= dec1 <= 90: z = sin(dec0) + ptp(sin) * u stays in
      [sin dec0, sin dec1], and arcsin keeps that order. */
  lemma DecWithin(t: Trig, declim: Lim, u: real, d: real)
    requires d == Rad2Deg(t.arcsin(ZFromUniform(t, declim, u)))
    ensures Lawful(t) && 0.0 <= u < 1.0 && -90.0 <= declim.lo <= declim.hi <= 90.0 ==>
              declim.lo <= d <= declim.hi
  {
    if Lawful(t) && 0.0 <= u < 1.0 && -90.0 <= declim.lo <= declim.hi <= 90.0 {
      var x0, x1 := Deg2Rad(declim.lo), Deg2Rad(declim.hi);
      var z := ZFromUniform(t, declim, u);
      assert -Pi / 2.0 <= x0 <= x1 <= Pi / 2.0 && t.sin(x0) <= z <= t.sin(x1) by {
        DecInRadians(declim.lo);
        DecInRadians(declim.hi);
        ConversionsMonotone(declim.lo, declim.hi);
        ZWithin(t, declim, u);
      }
      ArcsinBetween(t, x0, x1, z);
      DegreesBetween(declim.lo, declim.hi, t.arcsin(z), d);
    }
  }

  /** For dec limits in order inside [-90, 90], z lies in [sin dec0, sin dec1]. */
  lemma ZWithin(t: Trig, declim: Lim, u: real)
    requires Lawful(t) && 0.0 <= u < 1.0
    requires -90.0 <= declim.lo <= declim.hi <= 90.0
    ensures t.sin(Deg2Rad(declim.lo)) <= ZFromUniform(t, declim, u) <= t.sin(Deg2Rad(declim.hi))
  {
    SinSpanNested(t, declim, declim);
    AffineWithin(t.sin(Deg2Rad(declim.lo)), t.sin(Deg2Rad(declim.hi)), u);
  }

  /** Arcsine maps [sin x0, sin x1] back into [x0, x1] for
      -pi/2 <= x0 <= x1 <= pi/2. */
  lemma ArcsinBetween(t: Trig, x0: real, x1: real, z: real)
    requires Lawful(t)
    requires -Pi / 2.0 <= x0 <= x1 <= Pi / 2.0
    requires t.sin(x0) <= z <= t.sin(x1)
    ensures x0 <= t.arcsin(z) <= x1
  {
    SinBounded(t, x0);
    SinBounded(t, x1);
    assert t.arcsin(t.sin(x0)) <= t.arcsin(z) <= t.arcsin(t.sin(x1));
  }

  /** An angle between two limits taken to radians is, in degrees, between
      the limits. */
  lemma DegreesBetween(lo: real, hi: real, a: real, d: real)
    requires Deg2Rad(lo) <= a <= Deg2Rad(hi) && d == Rad2Deg(a)
    ensures lo <= d <= hi
  {
    ConversionsMonotone(Deg2Rad(lo), a);
    ConversionsMonotone(a, Deg2Rad(hi));
    DegRadRoundTrip(lo);
    DegRadRoundTrip(hi);
  }

  /** A dec in [-90, 90] degrees is in [-pi/2, pi/2] radians. */
  lemma DecInRadians(d: real)
    requires -90.0 <= d <= 90.0
    ensures -Pi / 2.0 <= Deg2Rad(d) <= Pi / 2.0
  {
  }

  /** lo + ptp(lo, hi) * u stays in [lo, hi] for lo <= hi and u in [0, 1). */
  lemma AffineWithin(lo: real, hi: real, u: real)
    requires lo <= hi && 0.0 <= u < 1.0
    ensures lo <= lo + Ptp(lo, hi) * u <= hi
  {
    AffineBounds(lo, Ptp(lo, hi), u, lo + Ptp(lo, hi) * u);
  }

  /** Every dec that random_radec returns lies in [dec0, dec1] when
      -90 <= dec0 <= dec1 <= 90. */
  lemma DecDrawsWithinLimits(t: Trig, npoints: real, ralim: Lim, declim: Lim, g: Rng)
    requires Lawful(t) && UnitDraws(g)
    requires -90.0 <= declim.lo <= declim.hi <= 90.0
    ensures var r := RandomRaDecWith(t, npoints, ralim, declim, g);
            r.Success? ==>
              forall i :: 0 <= i < |r.value.dec| ==> declim.lo <= r.value.dec[i] <= declim.hi
  {
    var r := RandomRaDecWith(t, npoints, ralim, declim, g);
    if r.Success? {
      forall i | 0 <= i < |r.value.dec|
        ensures declim.lo <= r.value.dec[i] <= declim.hi
      {
        assert r.value.dec[i] == DecFromUniform(t, declim, g.draws(g.pos + i));
      }
    }
  }

  // ---------------------------------------------------------------------
  // check_random_state
  // ---------------------------------------------------------------------

  /** A Python value inside a list given as a seed, told apart by its exact
      type as `type(seed[0]) == int` does (a bool is not an int there). */
  datatype PyValue = PyInt(i: int) | PyBool(b: bool) | PyOtherValue

  /** What `check_random_state` may be handed. */
  datatype Seed =
    | NoneSeed                        // None
    | NumpyRandomModule               // the module `np.random` itself
    | IntegralSeed(n: int)            // a numbers.Integral or np.integer (bools included)
    | StateSeed(state: Rng)           // an existing RandomState
    | ListSeed(items: seq<PyValue>)   // a Python list
    | OtherSeed                       // any other object

  /** How a new RandomState is seeded: from one integer or from a list. */
  datatype SeedKey = ScalarKey(n: int) | ListKey(items: seq<PyValue>)

  /** The generators numpy supplies: its global singleton, and the generator
      `RandomState(key)` starts as for each seed key. */
  datatype RngEnv = RngEnv(global: Rng, seeded: SeedKey -> Rng)

  /** `check_random_state(seed)`. */
  function CheckRandomState(seed: Seed, env: RngEnv): (r: Result<Rng, PyError>)
    ensures r.Success? <==> (seed.NoneSeed? || seed.NumpyRandomModule? || seed.IntegralSeed?
                             || seed.StateSeed? || (seed.ListSeed? && |seed.items| > 0 && seed.items[0].PyInt?))
    ensures seed.NoneSeed? || seed.NumpyRandomModule? ==> r == Success(env.global)
    ensures seed.IntegralSeed? ==> r == Success(env.seeded(ScalarKey(seed.n)))
    ensures seed.StateSeed? ==> r == Success(seed.state)
    ensures seed.ListSeed? && |seed.items| > 0 && seed.items[0].PyInt? ==> r == Success(env.seeded(ListKey(seed.items)))
    ensures seed.ListSeed? && seed.items == [] ==> r == Failure(IndexError)
    ensures r.Failure? && r.error.ValueError? <==>
              seed.OtherSeed? || (seed.ListSeed? && |seed.items| > 0 && !seed.items[0].PyInt?)
  {
    match seed
    case NoneSeed => Success(env.global)
    case NumpyRandomModule => Success(env.global)
    case IntegralSeed(n) => Success(env.seeded(ScalarKey(n)))
    case StateSeed(state) => Success(state)
    case ListSeed(items) =>
      if |items| == 0 then Failure(IndexError)
      else if items[0].PyInt? then Success(env.seeded(ListKey(items)))
      else Failure(ValueError("cannot be used to seed a numpy.random.RandomState instance"))
    case OtherSeed => Failure(ValueError("cannot be used to seed a numpy.random.RandomState instance"))
  }

  /** `random_radec(npoints, ralim, declim, random_state)`: the seed is
      checked first, so a bad seed is reported even for a negative size. */
  function RandomRaDec(t: Trig, npoints: real, ralim: Lim, declim: Lim, seed: Seed, env: RngEnv): (r: Result<Draws, PyError>)
    ensures CheckRandomState(seed, env).Failure? ==> r.Failure? && r.error == CheckRandomState(seed, env).error
    ensures CheckRandomState(seed, env).Success? ==>
              r == RandomRaDecWith(t, npoints, ralim, declim, CheckRandomState(seed, env).value)
  {
    match CheckRandomState(seed, env)
    case Failure(e) => Failure(e)
    case Success(g) => RandomRaDecWith(t, npoints, ralim, declim, g)
  }

  /** The same integer seed gives the same points, whatever state numpy's
      global generator is in. */
  lemma SameSeedSamePoints(t: Trig, npoints: real, ralim: Lim, declim: Lim, n: int, env: RngEnv, env': RngEnv)
    requires env.seeded == env'.seeded
    ensures RandomRaDec(t, npoints, ralim, declim, IntegralSeed(n), env)
         == RandomRaDec(t, npoints, ralim, declim, IntegralSeed(n), env')
  {
  }
}
