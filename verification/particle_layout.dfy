/** Where each particle of the cloud starts, where it goes when the tree forms,
    and its colour: the values the initialisation loop writes into the three
    flat buffers of length 3 * ParticleCount. */
module ParticleLayout {
  import opened Common

  const ParticleCount: nat := 8000
  const HalfCount: nat := ParticleCount / 2
  const TreeHeight: real := 10.0
  const TreeRadius: real := 4.0
  /** Each particle draws three scatter coordinates and one colour mix. */
  const DrawsPerParticle: nat := 4

  /** Slot `c` (0, 1 or 2 for x, y, z) of particle `i` in a flat buffer. */
  function Slot(i: nat, c: nat): nat {
    3 * i + c
  }

  /** The slots of particle `i` are its own and lie inside the buffer. */
  lemma SlotsOfParticle(i: nat, c: nat)
    requires i < ParticleCount && c < 3
    ensures Slot(i, c) < 3 * ParticleCount
    ensures Slot(i, c) / 3 == i && Slot(i, c) % 3 == c
  {
  }

  /** JavaScript's `x % 1.0` for a non-negative `x`. */
  function FracPart(x: real): (f: real)
    requires x >= 0.0
    ensures 0.0 <= f < 1.0
  {
    x - x.Floor as real
  }

  /** Position of particle `i` along its helix, from base (0) towards apex. */
  function HelixT(i: nat): (t: real)
    requires i < ParticleCount
    ensures 0.0 <= t < 1.0
    ensures t == HelixIndex(i) as real / HalfCount as real
  {
    var q := i as real / 4000.0;
    FloorIs(q, if i < HalfCount then 0 else 1);
    FracPart(q)
  }

  /** The index of particle `i` within its own helix. */
  function HelixIndex(i: nat): nat {
    if i < HalfCount then i else i - HalfCount
  }

  lemma FloorIs(q: real, n: int)
    requires n as real <= q < n as real + 1.0
    ensures q.Floor == n
  {
  }

  /** The first half of the particles forms helix 1, the rest helix 2. */
  predicate IsHelix1(i: nat) {
    i < HalfCount
  }

  /** The helix angle, in multiples of pi: five turns, helix 2 offset by pi. */
  function AngleOverPi(i: nat): (a: real)
    requires i < ParticleCount
    ensures IsHelix1(i) ==> 0.0 <= a < 10.0
    ensures !IsHelix1(i) ==> 1.0 <= a < 11.0
  {
    HelixT(i) * 10.0 + (if IsHelix1(i) then 0.0 else 1.0)
  }

  function TargetHeight(i: nat): (h: real)
    requires i < ParticleCount
    ensures -TreeHeight / 2.0 <= h < TreeHeight / 2.0
  {
    HelixT(i) * TreeHeight - TreeHeight / 2.0
  }

  /** The cone narrows from the base to the apex. */
  function TargetRadius(i: nat): (r: real)
    requires i < ParticleCount
    ensures 0.2 < r <= TreeRadius + 0.2
  {
    TreeRadius * (1.0 - HelixT(i)) + 0.2
  }

  /** The two helices are the same curve turned half a revolution: particle
      `i` of helix 1 and particle `i + HalfCount` of helix 2 sit at the same
      height and radius, half a turn apart. */
  lemma {:induction false} HelicesAreHalfATurnApart(i: nat)
    requires i < HalfCount
    ensures IsHelix1(i) && !IsHelix1(i + HalfCount)
    ensures HelixT(i + HalfCount) == HelixT(i)
    ensures TargetHeight(i + HalfCount) == TargetHeight(i)
    ensures TargetRadius(i + HalfCount) == TargetRadius(i)
    ensures AngleOverPi(i + HalfCount) == AngleOverPi(i) + 1.0
  {
  }

  /** Higher particles of a helix sit on a narrower circle. */
  lemma {:induction false} ConeNarrowsUpwards(i: nat, j: nat)
    requires i < j < ParticleCount
    requires IsHelix1(i) == IsHelix1(j)
    ensures TargetHeight(i) < TargetHeight(j)
    ensures TargetRadius(i) > TargetRadius(j)
  {
    assert HelixIndex(i) < HelixIndex(j);
    assert HelixT(i) < HelixT(j);
  }

  /** Component `c` of particle `i`'s place on the tree. */
  function TargetCoord(i: nat, c: nat, trig: Trig): (v: real)
    requires i < ParticleCount && c < 3
    ensures c == 1 ==> -TreeHeight / 2.0 <= v < TreeHeight / 2.0
  {
    var a, r := AngleOverPi(i), TargetRadius(i);
    if c == 0 then Radial(trig.cosPi(a), r)
    else if c == 1 then TargetHeight(i)
    else Radial(trig.sinPi(a), r)
  }

  /** The random starting coordinate made from draw `r`. */
  function Scatter(r: real): (p: real)
    ensures IsUnit(r) ==> -25.0 <= p < 25.0
  {
    (r - 0.5) * 50.0
  }

  datatype Rgb = Rgb(r: real, g: real, b: real)

  function Channel(colour: Rgb, c: nat): real {
    if c == 0 then colour.r else if c == 1 then colour.g else colour.b
  }

  /** Linear interpolation from `a` to `b` by `w`. */
  function Lerp(a: real, b: real, w: real): (v: real)
    ensures 0.0 <= w <= 1.0 && a <= b ==> a <= v <= b
    ensures 0.0 <= w <= 1.0 && b <= a ==> b <= v <= a
    ensures w == 0.0 ==> v == a
  {
    if 0.0 <= w <= 1.0 then
      ScaledBetween(b - a, w);
      a + (b - a) * w
    else
      a + (b - a) * w
  }

  /** The starting coordinate in slot `k`, from the draws `rand`, four per
      particle. */
  function PositionAt(rand: seq<real>, k: nat): real
    requires |rand| == DrawsPerParticle * ParticleCount && k < 3 * ParticleCount
  {
    Scatter(rand[DrawsPerParticle * (k / 3) + k % 3])
  }

  /** The tree coordinate in slot `k`. */
  function TargetAt(trig: Trig, k: nat): real
    requires k < 3 * ParticleCount
  {
    TargetCoord(k / 3, k % 3, trig)
  }

  /** The colour channel in slot `k`, each particle mixed from `from` towards
      `to` by its fourth draw. */
  function ColourAt(rand: seq<real>, from: Rgb, to: Rgb, k: nat): real
    requires |rand| == DrawsPerParticle * ParticleCount && k < 3 * ParticleCount
  {
    Lerp(Channel(from, k % 3), Channel(to, k % 3), rand[DrawsPerParticle * (k / 3) + 3])
  }

  /** The three slot functions at slot `c` of particle `i`. */
  lemma SlotValues(rand: seq<real>, trig: Trig, from: Rgb, to: Rgb, i: nat, c: nat)
    requires |rand| == DrawsPerParticle * ParticleCount
    requires i < ParticleCount && c < 3
    ensures Slot(i, c) < 3 * ParticleCount
    ensures PositionAt(rand, Slot(i, c)) == Scatter(rand[DrawsPerParticle * i + c])
    ensures TargetAt(trig, Slot(i, c)) == TargetCoord(i, c, trig)
    ensures ColourAt(rand, from, to, Slot(i, c)) == Lerp(Channel(from, c), Channel(to, c), rand[DrawsPerParticle * i + 3])
  {
    SlotsOfParticle(i, c);
    assert DrawsPerParticle * (Slot(i, c) / 3) + Slot(i, c) % 3 == DrawsPerParticle * i + c;
  }

  /** The buffer of starting positions. */
  function PositionsBuffer(rand: seq<real>): (buf: seq<real>)
    requires |rand| == DrawsPerParticle * ParticleCount
    ensures |buf| == 3 * ParticleCount
  {
    seq(3 * ParticleCount, k requires 0 <= k < 3 * ParticleCount => PositionAt(rand, k))
  }

  /** The buffer of tree positions. */
  function TargetsBuffer(trig: Trig): (buf: seq<real>)
    ensures |buf| == 3 * ParticleCount
  {
    seq(3 * ParticleCount, k requires 0 <= k < 3 * ParticleCount => TargetAt(trig, k))
  }

  /** The buffer of colours. */
  function ColoursBuffer(rand: seq<real>, from: Rgb, to: Rgb): (buf: seq<real>)
    requires |rand| == DrawsPerParticle * ParticleCount
    ensures |buf| == 3 * ParticleCount
  {
    seq(3 * ParticleCount, k requires 0 <= k < 3 * ParticleCount => ColourAt(rand, from, to, k))
  }

  /** What the buffers hold for particle `i`: a scattered start inside the
      50-unit cube, and its place on the tree, whose height lies in [-5, 5). */
  lemma ParticleSlots(rand: seq<real>, trig: Trig, i: nat, c: nat)
    requires |rand| == DrawsPerParticle * ParticleCount && AllUnit(rand)
    requires i < ParticleCount && c < 3
    ensures -25.0 <= PositionsBuffer(rand)[Slot(i, c)] < 25.0
    ensures TargetsBuffer(trig)[Slot(i, c)] == TargetCoord(i, c, trig)
    ensures -5.0 <= TargetsBuffer(trig)[Slot(i, 1)] < 5.0
  {
    SlotsOfParticle(i, c);
    SlotsOfParticle(i, 1);
    assert IsUnit(rand[DrawsPerParticle * i + c]);
  }

  /** For a trigonometric pair on the unit circle, particle `i`'s place on the
      tree lies on the horizontal circle of its cone radius, in (0.2, 4.2]. */
  lemma TargetOnCircle(trig: Trig, i: nat)
    requires i < ParticleCount && OnUnitCircle(trig)
    ensures TargetCoord(i, 0, trig) * TargetCoord(i, 0, trig) + TargetCoord(i, 2, trig) * TargetCoord(i, 2, trig)
         == TargetRadius(i) * TargetRadius(i)
  {
    var a, r := AngleOverPi(i), TargetRadius(i);
    OnCircleOfRadius(trig, a, r);
    SameSquares(TargetCoord(i, 0, trig), TargetCoord(i, 2, trig), Radial(trig.cosPi(a), r), Radial(trig.sinPi(a), r), r);
  }

  lemma SameSquares(x: real, z: real, x2: real, z2: real, r: real)
    requires x == x2 && z == z2 && x2 * x2 + z2 * z2 == r * r
    ensures x * x + z * z == r * r
  {
  }
}
