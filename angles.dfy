/** Angles as numpy handles them: its constant pi, `deg2rad` and `rad2deg`,
    and sine and arcsine. Real sine cannot be defined here, so `np.sin` and
    `np.arcsin` are a pair of functions that the lemmas constrain by the laws
    the sampler's correctness depends on (see Lawful). */
module Angles {

  /** `np.pi`: the double nearest to pi, written as its shortest decimal. */
  const Pi: real := 3.141592653589793

  /** `np.rad2deg`: scaling the result back by pi/180 gives x. */
  function Rad2Deg(x: real): (r: real)
    ensures r * Pi / 180.0 == x
  {
    x * 180.0 / Pi
  }

  /** `np.deg2rad`: rad2deg takes the result back to x. */
  function Deg2Rad(x: real): (r: real)
    ensures Rad2Deg(r) == x
  {
    x * Pi / 180.0
  }

  /** Over the reals, converting to radians and back is the identity, in
      both orders. */
  lemma DegRadRoundTrip(x: real)
    ensures Rad2Deg(Deg2Rad(x)) == x
    ensures Deg2Rad(Rad2Deg(x)) == x
  {
  }

  /** Both conversions scale by a positive factor, so they keep order. */
  lemma ConversionsMonotone(x: real, y: real)
    requires x <= y
    ensures Deg2Rad(x) <= Deg2Rad(y)
    ensures Rad2Deg(x) <= Rad2Deg(y)
  {
  }

  /** `np.sin` and `np.arcsin` on real arguments. */
  datatype Trig = Trig(sin: real -> real, arcsin: real -> real)

  /** The laws of sine and arcsine the model relies on: sine is monotone on
      [-pi/2, pi/2] with sin 0 = 0 and sin(+-pi/2) = +-1; arcsine undoes sine
      there and is monotone on [-1, 1]. */
  ghost predicate Lawful(t: Trig)
  {
    && t.sin(0.0) == 0.0
    && t.sin(Pi / 2.0) == 1.0
    && t.sin(-Pi / 2.0) == -1.0
    && (forall x, y :: -Pi / 2.0 <= x <= y <= Pi / 2.0 ==> t.sin(x) <= t.sin(y))
    && (forall x :: -Pi / 2.0 <= x <= Pi / 2.0 ==> t.arcsin(t.sin(x)) == x)
    && (forall z, w :: -1.0 <= z <= w <= 1.0 ==> t.arcsin(z) <= t.arcsin(w))
  }

  /** Clamps z into [-1, 1]. */
  function Clamp(z: real): real
  {
    if z < -1.0 then -1.0 else if z > 1.0 then 1.0 else z
  }

  /** A piecewise-linear stand-in for sine and arcsine. It is not the real
      pair; it only shows that the laws in Lawful can be met together. */
  function LinearTrig(): Trig
  {
    Trig(x => Clamp(2.0 * x / Pi), z => Clamp(z) * Pi / 2.0)
  }

  lemma LinearTrigLawful()
    ensures Lawful(LinearTrig())
  {
    var t := LinearTrig();
    forall x | -Pi / 2.0 <= x <= Pi / 2.0
      ensures t.arcsin(t.sin(x)) == x
    {
      assert t.sin(x) == 2.0 * x / Pi;
    }
  }

  /** Under the laws, sine maps [-pi/2, pi/2] into [-1, 1]. */
  lemma SinBounded(t: Trig, x: real)
    requires Lawful(t)
    requires -Pi / 2.0 <= x <= Pi / 2.0
    ensures -1.0 <= t.sin(x) <= 1.0
  {
    assert t.sin(-Pi / 2.0) <= t.sin(x) <= t.sin(Pi / 2.0);
  }
}
