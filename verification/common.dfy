/** Small value types shared by the scene model. */
module Common {

  datatype Option<+T> = None | Some(value: T)

  /** A value as `Math.random()` returns it: in [0, 1). */
  predicate IsUnit(r: real) {
    0.0 <= r < 1.0
  }

  /** Every draw in `rs` is a `Math.random()` value. */
  predicate AllUnit(rs: seq<real>) {
    forall k :: 0 <= k < |rs| ==> IsUnit(rs[k])
  }

  datatype Vec3 = Vec3(x: real, y: real, z: real)

  /** Cosine and sine of an angle given in multiples of pi. The floating-point
      trigonometry itself is not modelled: it is supplied by the caller. */
  datatype Trig = Trig(cosPi: real -> real, sinPi: real -> real)

  /** The trigonometric pair behaves like cosine and sine on the unit circle. */
  ghost predicate OnUnitCircle(trig: Trig) {
    forall a :: trig.cosPi(a) * trig.cosPi(a) + trig.sinPi(a) * trig.sinPi(a) == 1.0
  }

  /** Scaling `d` by a weight in [0, 1] keeps it between 0 and `d`. */
  lemma ScaledBetween(d: real, w: real)
    requires 0.0 <= w <= 1.0
    ensures 0.0 <= d ==> 0.0 <= d * w <= d
    ensures d <= 0.0 ==> d <= d * w <= 0.0
  {
    assert d - d * w == d * (1.0 - w);
    if 0.0 <= d {
      MulNonNegative(d, w);
      MulNonNegative(d, 1.0 - w);
    } else {
      MulNonNegative(-d, w);
      MulNonNegative(-d, 1.0 - w);
      assert (-d) * w == -(d * w);
      assert (-d) * (1.0 - w) == -(d * (1.0 - w));
    }
  }

  lemma MulNonNegative(a: real, b: real)
    requires 0.0 <= a && 0.0 <= b
    ensures 0.0 <= a * b
  {
  }

  lemma MulPositive(a: real, b: real)
    requires 0.0 < a && 0.0 < b
    ensures 0.0 < a * b
  {
  }

  /** A horizontal coordinate at distance `r` from the axis, `f` being the
      cosine or sine of its angle. */
  function Radial(f: real, r: real): real {
    f * r
  }

  /** A point at angle `a` on a circle of radius `r` lies at distance `r`
      from the centre. */
  lemma OnCircleOfRadius(trig: Trig, a: real, r: real)
    requires OnUnitCircle(trig)
    ensures Radial(trig.cosPi(a), r) * Radial(trig.cosPi(a), r)
          + Radial(trig.sinPi(a), r) * Radial(trig.sinPi(a), r) == r * r
  {
    var c, s := trig.cosPi(a), trig.sinPi(a);
    assert Radial(c, r) == c * r && Radial(s, r) == s * r;
    assert c * c + s * s == 1.0;
    assert (c * r) * (c * r) == (c * c) * (r * r);
    assert (s * r) * (s * r) == (s * s) * (r * r);
    assert (c * c) * (r * r) + (s * s) * (r * r) == (c * c + s * s) * (r * r);
  }
}
