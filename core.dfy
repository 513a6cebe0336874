/** skyrandoms/core.py: the `SkyRandoms` object. It keeps ra/dec limits
    behind checked setters, the random-number generator it was given, and
    the solid angle of its limits, computed on first use and kept from then
    on. */
module Core {
  import opened PyBuiltins
  import opened Angles
  import opened Utils

  /** The ra setter's check, `lim[0] >= 0 and lim[1] <= 360`. The order of
      the two limits is not checked; limits that pass and are in order lie
      in [0, 360] and span at most the full circle. */
  predicate RaLimAccepted(lim: Lim): (ok: bool)
    ensures ok && lim.lo <= lim.hi ==> 0.0 <= lim.hi && lim.lo <= 360.0 && Ptp(lim.lo, lim.hi) <= 360.0
  {
    0.0 <= lim.lo && lim.hi <= 360.0
  }

  /** The dec setter's check, `lim[0] >= -90 and lim[1] <= 90`. Limits that
      pass and are in order lie in [-pi/2, pi/2] in radians, where sine is
      monotone and arcsine undoes it. */
  predicate DecLimAccepted(lim: Lim): (ok: bool)
    ensures ok && lim.lo <= lim.hi ==> -Pi / 2.0 <= Deg2Rad(lim.lo) <= Deg2Rad(lim.hi) <= Pi / 2.0
  {
    -90.0 <= lim.lo && lim.hi <= 90.0
  }

  const RaMessage: string := "ra must be in [0, 360]"
  const DecMessage: string := "dec must be in [-90, 90]"

  /** The number of points draw_randoms hands to random_radec: the argument
      `npoints`, or `round(density * area, 0)` when a density is given: then
      a whole number within 1/2 of density * area, even on a tie. */
  function RequestedPoints(npoints: real, density: Option<real>, area: real): (r: real)
    ensures density.Some? ==>
              && r == r.Floor as real
              && Dist(r.Floor, density.value * area) <= 0.5
              && (Dist(r.Floor, density.value * area) == 0.5 ==> r.Floor % 2 == 0)
  {
    if density.None? then npoints else RoundHalfEven(density.value * area) as real
  }

  /** With a density, the number of points drawn is the density times the
      area rounded half to even; without one it is `int(npoints)`. */
  lemma PointCount(npoints: real, density: Option<real>, area: real)
    ensures density.Some? ==> Trunc(RequestedPoints(npoints, density, area)) == RoundHalfEven(density.value * area)
    ensures density.None? ==> Trunc(RequestedPoints(npoints, density, area)) == Trunc(npoints)
  {
    if density.Some? {
      TruncOfWhole(RoundHalfEven(density.value * area));
    }
  }

  class SkyRandoms {
    var ralim: Lim               // `_ralim`
    var declim: Lim              // `_declim`
    var rng: Rng                 // `rng`
    var cachedArea: Option<real> // `_area`: None until `area` is first read

    /** Both limits passed their setter's check. */
    ghost predicate Valid()
      reads this
    {
      RaLimAccepted(ralim) && DecLimAccepted(declim)
    }

    /** What reading `area` gives now: the cached value once there is one,
        otherwise the solid angle of the current limits. */
    ghost function AreaNow(t: Trig): real
      reads this
    {
      match cachedArea
      case Some(a) => a
      case None => SolidAngle(t, ralim, declim)
    }

    /** Sets the fields once `__init__` has accepted its arguments. Only
        Create calls it: it does not check the limits itself. */
    constructor Init(ralim: Lim, declim: Lim, rng: Rng)
      ensures this.ralim == ralim && this.declim == declim && this.rng == rng
      ensures cachedArea == None
    {
      this.ralim := ralim;
      this.declim := declim;
      this.rng := rng;
      cachedArea := None;
    }

    /** `SkyRandoms(ralim, declim, random_state)`: the ra setter, the dec
        setter and check_random_state run in that order, and the first to
        raise stops construction. A new object has an empty area cache. */
    static method Create(ralim: Lim, declim: Lim, seed: Seed, env: RngEnv) returns (r: Result<SkyRandoms, PyError>)
      ensures r.Success? <==> RaLimAccepted(ralim) && DecLimAccepted(declim) && CheckRandomState(seed, env).Success?
      ensures !RaLimAccepted(ralim) ==> r == Failure(AssertionError(RaMessage))
      ensures RaLimAccepted(ralim) && !DecLimAccepted(declim) ==> r == Failure(AssertionError(DecMessage))
      ensures RaLimAccepted(ralim) && DecLimAccepted(declim) && CheckRandomState(seed, env).Failure? ==>
                r == Failure(CheckRandomState(seed, env).error)
      ensures r.Success? ==>
                && fresh(r.value) && r.value.Valid()
                && r.value.ralim == ralim && r.value.declim == declim
                && r.value.rng == CheckRandomState(seed, env).value
                && r.value.cachedArea == None
    {
      if !RaLimAccepted(ralim) {
        return Failure(AssertionError(RaMessage));
      }
      if !DecLimAccepted(declim) {
        return Failure(AssertionError(DecMessage));
      }
      var g := CheckRandomState(seed, env);
      if g.Failure? {
        return Failure(g.error);
      }
      var s := new SkyRandoms.Init(ralim, declim, g.value);
      r := Success(s);
    }

    /** The `ralim` setter: a limit that fails the check raises and leaves
        `_ralim` as it was. The area cache is not touched either way. */
    method SetRalim(lim: Lim) returns (r: Outcome<PyError>)
      modifies this`ralim
      ensures r == if RaLimAccepted(lim) then Pass else Fail(AssertionError(RaMessage))
      ensures ralim == if RaLimAccepted(lim) then lim else old(ralim)
      ensures cachedArea == old(cachedArea)
      ensures old(Valid()) ==> Valid()
    {
      if !RaLimAccepted(lim) {
        return Fail(AssertionError(RaMessage));
      }
      ralim := lim;
      r := Pass;
    }

    /** The `declim` setter: a limit that fails the check raises and leaves
        `_declim` as it was. The area cache is not touched either way. */
    method SetDeclim(lim: Lim) returns (r: Outcome<PyError>)
      modifies this`declim
      ensures r == if DecLimAccepted(lim) then Pass else Fail(AssertionError(DecMessage))
      ensures declim == if DecLimAccepted(lim) then lim else old(declim)
      ensures cachedArea == old(cachedArea)
      ensures old(Valid()) ==> Valid()
    {
      if !DecLimAccepted(lim) {
        return Fail(AssertionError(DecMessage));
      }
      declim := lim;
      r := Pass;
    }

    /** The `area` property: the first read computes the solid angle of the
        current limits and stores it; every later read returns what was
        stored, whatever the limits are by then. */
    method Area(t: Trig) returns (a: real)
      modifies this`cachedArea
      ensures old(cachedArea).Some? ==> a == old(cachedArea).value
      ensures old(cachedArea).None? ==> a == SolidAngle(t, ralim, declim)
      ensures a == old(AreaNow(t))
      ensures cachedArea == Some(a)
    {
      if cachedArea.None? {
        cachedArea := Some(SolidAngle(t, ralim, declim));
      }
      a := cachedArea.value;
    }

    /** `draw_randoms(npoints, density)`: with a density the count is
        `round(density * area, 0)`, read through the `area` property (so the
        cache is filled); then random_radec runs on this object's own
        generator, which moves past the 2n draws it used. When the object is
        valid, its limits are each in order and its generator draws from
        [0, 1), every point drawn lies inside its box. */
    method DrawRandoms(t: Trig, npoints: real, density: Option<real>) returns (r: Result<(seq<real>, seq<real>), PyError>)
      modifies this`cachedArea, this`rng
      ensures cachedArea == if density.Some? then Some(old(AreaNow(t))) else old(cachedArea)
      ensures var d := RandomRaDecWith(t, RequestedPoints(npoints, density, old(AreaNow(t))), ralim, declim, old(rng));
              && (d.Success? ==> r == Success((d.value.ra, d.value.dec)) && rng == d.value.rest)
              && (d.Failure? ==> r == Failure(d.error) && rng == old(rng))
      ensures r.Success? ==>
                && |r.value.0| == |r.value.1| == Trunc(RequestedPoints(npoints, density, old(AreaNow(t))))
                && rng.draws == old(rng.draws)
                && rng.pos == old(rng.pos) + 2 * |r.value.0|
    ensures old(Valid()) && Lawful(t) && UnitDraws(old(rng)) && ralim.lo <= ralim.hi && declim.lo <= declim.hi ==>
              r.Success? ==>
                && (forall i :: 0 <= i < |r.value.0| ==> ralim.lo <= r.value.0[i] <= ralim.hi)
                && (forall i :: 0 <= i < |r.value.1| ==> declim.lo <= r.value.1[i] <= declim.hi)
    {
      ghost var areaBefore := AreaNow(t);
      var n := npoints;
      if density.Some? {
        var area := Area(t);
        n := RequestedPoints(npoints, density, area);
      }
      assert n == RequestedPoints(npoints, density, areaBefore);
      var d := RandomRaDecWith(t, n, ralim, declim, rng);
      if Valid() && Lawful(t) && UnitDraws(rng) && ralim.lo <= ralim.hi && declim.lo <= declim.hi {
        RaDrawsWithinLimits(t, n, ralim, declim, rng);
        DecDrawsWithinLimits(t, n, ralim, declim, rng);
      }
      if d.Failure? {
        return Failure(d.error);
      }
      rng := d.value.rest;
      r := Success((d.value.ra, d.value.dec));
    }
  }

  /** `draw_randoms()` with its defaults, `npoints=1` and no density, asks
      for exactly one point. */
  lemma DefaultDrawIsOnePoint(t: Trig, area: real, ralim: Lim, declim: Lim, g: Rng)
    ensures var d := RandomRaDecWith(t, RequestedPoints(1.0, None, area), ralim, declim, g);
            d.Success? && |d.value.ra| == 1 && |d.value.dec| == 1
  {
    TruncOfWhole(1);
  }

  /** Density 1 over the whole sky asks for round(129600 / pi) = 41253
      points. */
  lemma WholeSphereCount(t: Trig)
    requires Lawful(t)
    ensures RoundHalfEven(1.0 * SolidAngle(t, Lim(0.0, 360.0), Lim(-90.0, 90.0))) == 41253
  {
    WholeSphereArea(t);
    var a := 129600.0 / Pi;
    assert 41252.9 < a < 41253.0 by {
      assert 41252.9 * Pi < 129600.0 < 41253.0 * Pi;
    }
    RoundHalfEvenUnique(1.0 * a, 41253);
  }

  /** `SkyRandoms([0, 360], [-90, 90]).draw_randoms(density=1)` returns
      41253 ra values and as many dec values. */
  method WholeSkyDensityOne(t: Trig, env: RngEnv) returns (ra: seq<real>, dec: seq<real>)
    requires Lawful(t)
    ensures |ra| == 41253 && |dec| == 41253
  {
    var c := SkyRandoms.Create(Lim(0.0, 360.0), Lim(-90.0, 90.0), NoneSeed, env);
    var s := c.value;
    WholeSphereCount(t);
    PointCount(1.0, Some(1.0), SolidAngle(t, s.ralim, s.declim));
    var r := s.DrawRandoms(t, 1.0, Some(1.0));
    ra, dec := r.value.0, r.value.1;
  }

  /** Setting new limits after `area` has been read leaves `area` at the old
      value: over the whole sky it stays 129600 / pi after the ra limits
      shrink to [0, 90], a quarter of the sky. */
  method StaleAreaAfterNewLimits(t: Trig, env: RngEnv) returns (before: real, after: real)
    requires Lawful(t)
    ensures before == after == 129600.0 / Pi
    ensures after != SolidAngle(t, Lim(0.0, 90.0), Lim(-90.0, 90.0))
  {
    var c := SkyRandoms.Create(Lim(0.0, 360.0), Lim(-90.0, 90.0), NoneSeed, env);
    var s := c.value;
    WholeSphereArea(t);
    before := s.Area(t);
    var _ := s.SetRalim(Lim(0.0, 90.0));
    after := s.Area(t);
    QuarterSky(t);
  }

  /** The ra span [0, 90] covers a quarter of the whole sky. */
  lemma QuarterSky(t: Trig)
    requires Lawful(t)
    ensures SolidAngle(t, Lim(0.0, 90.0), Lim(-90.0, 90.0)) == 129600.0 / Pi / 4.0
  {
    WholeSphereArea(t);
  }

  /** Two successive draws on one object read successive stretches of its
      generator: the second starts where the first stopped. */
  method DrawTwice(s: SkyRandoms, t: Trig, n1: nat, n2: nat)
      returns (r1: Result<(seq<real>, seq<real>), PyError>, r2: Result<(seq<real>, seq<real>), PyError>)
    modifies s
    ensures r1.Success? && r2.Success?
    ensures |r1.value.0| == n1 && |r2.value.0| == n2
    ensures s.rng == Rng(old(s.rng.draws), old(s.rng.pos) + 2 * n1 + 2 * n2)
    ensures forall i :: 0 <= i < n2 ==>
              r2.value.0[i] == RaFromUniform(s.ralim, s.rng.draws(old(s.rng.pos) + 2 * n1 + n2 + i))
  {
    r1 := s.DrawRandoms(t, n1 as real, None);
    r2 := s.DrawRandoms(t, n2 as real, None);
    TruncOfWhole(n1);
    TruncOfWhole(n2);
  }
}
