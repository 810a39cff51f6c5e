/** The gifts piled round the foot of the tree once it has formed: how many,
    which colours, and where each one is put. */
module GiftLayout {
  import opened Common

  const GiftCount: nat := 90
  /** Size, ribbon thickness, ribbon colour, angle, distance, height, and the
      three rotations: nine draws per gift, in that order. */
  const DrawsPerGift: nat := 9
  const GiftColours: seq<int> := [0xCC0000, 0x00AA55, 0x0066CC, 0xDDCC00, 0x9933CC, 0xFF66AA, 0xFFFFFF, 0x333333]
  const RibbonColours: seq<int> := [0xFFD700, 0xFFFFFF, 0xFF0000, 0x00CCFF, 0xCC00AA]

  datatype Gift = Gift(
    colour: int,
    ribbonColour: int,
    size: real,
    ribbonThickness: real,
    position: Vec3,
    yawOverPi: real,
    pitch: real,
    roll: real,
    scale: real,
    entranceDelay: real)

  /** `Math.floor(r * 5)`: which ribbon colour a draw picks. */
  function RibbonIndex(r: real): (k: int)
    requires IsUnit(r)
    ensures 0 <= k < |RibbonColours|
  {
    var v := r * 5.0;
    assert 0.0 <= v < 5.0;
    v.Floor
  }

  /** Distance of a gift from the tree axis. */
  function GiftDistance(r: real): (d: real)
    ensures IsUnit(r) ==> 1.0 <= d < 5.5
  {
    1.0 + r * 4.5
  }

  /** How high gifts may stack at distance `dist`: highest near the trunk,
      nothing from distance 5 outwards. */
  function StackFactor(dist: real): (f: real)
    ensures 1.0 <= dist < 5.5 ==> 0.0 <= f <= 2.0
    ensures dist >= 5.0 ==> f == 0.0
  {
    var v := 1.0 - dist / 5.0;
    (if v > 0.0 then v else 0.0) * 2.5
  }

  function GiftHeight(dist: real, r: real): (h: real)
    ensures IsUnit(r) && 1.0 <= dist < 5.5 ==> -5.0 <= h <= -3.0
    ensures dist >= 5.0 ==> h == -5.0
  {
    var f := StackFactor(dist);
    if IsUnit(r) && 1.0 <= dist < 5.5 then
      ScaledBetween(f, r);
      assert f * r == r * f;
      -5.0 + r * f
    else
      -5.0 + r * f
  }

  /** Gift `i` built from its nine draws `rs`. */
  function MakeGift(i: nat, rs: seq<real>, trig: Trig): (g: Gift)
    requires |rs| == DrawsPerGift && AllUnit(rs)
    ensures g.colour == GiftColours[i % 8] && g.ribbonColour in RibbonColours
    ensures g.scale == 0.0 && g.entranceDelay >= 1.2
    ensures 0.25 <= g.size < 1.05 && 0.15 <= g.ribbonThickness < 0.4
    ensures -5.0 <= g.position.y <= -3.0
    ensures 0.0 <= g.yawOverPi < 1.0
    ensures -0.15 <= g.pitch < 0.15 && -0.15 <= g.roll < 0.15
  {
    assert IsUnit(rs[0]) && IsUnit(rs[1]) && IsUnit(rs[2]) && IsUnit(rs[4]) && IsUnit(rs[5]);
    assert IsUnit(rs[6]) && IsUnit(rs[7]) && IsUnit(rs[8]);
    var angleOverPi := rs[3] * 2.0;
    var dist := GiftDistance(rs[4]);
    Gift(
      GiftColours[i % |GiftColours|],
      RibbonColours[RibbonIndex(rs[2])],
      0.25 + rs[0] * 0.8,
      0.15 + rs[1] * 0.25,
      Vec3(Radial(trig.cosPi(angleOverPi), dist), GiftHeight(dist, rs[5]), Radial(trig.sinPi(angleOverPi), dist)),
      rs[6],
      (rs[7] - 0.5) * 0.3,
      (rs[8] - 0.5) * 0.3,
      0.0,
      1.2 + i as real * 0.03)
  }

  /** The draws of gift `i`. */
  function DrawsOf(rand: seq<real>, i: nat): (rs: seq<real>)
    requires |rand| == DrawsPerGift * GiftCount && AllUnit(rand)
    requires i < GiftCount
    ensures |rs| == DrawsPerGift && AllUnit(rs)
  {
    rand[DrawsPerGift * i .. DrawsPerGift * i + DrawsPerGift]
  }

  /** The gifts `addGifts` creates, in order, from its draws `rand`. */
  function GiftBatch(rand: seq<real>, trig: Trig): (gs: seq<Gift>)
    requires |rand| == DrawsPerGift * GiftCount && AllUnit(rand)
    ensures |gs| == GiftCount
  {
    seq(GiftCount, i requires 0 <= i < GiftCount => MakeGift(i, DrawsOf(rand, i), trig))
  }

  /** What `addGifts` promises about each gift: its box colour cycles through
      the eight colours, its ribbon is one of the five ribbon colours, it starts
      invisible (scale 0), it rests between heights -5 and -3, its size and
      ribbon lie in their ranges, and its entrance starts after the one before.
      For a trigonometric pair on the unit circle its horizontal distance d from
      the axis satisfies 1 <= d < 5.5. */
  lemma GiftBatchShape(rand: seq<real>, trig: Trig, i: nat)
    requires |rand| == DrawsPerGift * GiftCount && AllUnit(rand)
    requires i < GiftCount
    ensures GiftBatch(rand, trig)[i].colour == GiftColours[i % 8]
    ensures GiftBatch(rand, trig)[i].ribbonColour in RibbonColours
    ensures GiftBatch(rand, trig)[i].scale == 0.0
    ensures -5.0 <= GiftBatch(rand, trig)[i].position.y <= -3.0
    ensures 0.25 <= GiftBatch(rand, trig)[i].size < 1.05
    ensures 0.15 <= GiftBatch(rand, trig)[i].ribbonThickness < 0.4
    ensures 0 < i ==> GiftBatch(rand, trig)[i - 1].entranceDelay < GiftBatch(rand, trig)[i].entranceDelay
    ensures OnUnitCircle(trig) ==>
      var p := GiftBatch(rand, trig)[i].position;
      1.0 <= p.x * p.x + p.z * p.z < 5.5 * 5.5
  {
    var rs := DrawsOf(rand, i);
    assert GiftBatch(rand, trig)[i] == MakeGift(i, rs, trig);
    assert IsUnit(rs[4]);
    var dist := GiftDistance(rs[4]);
    if OnUnitCircle(trig) {
      var a := rs[3] * 2.0;
      OnCircleOfRadius(trig, a, dist);
      SquareBetween(dist, 1.0, 5.5);
      var p := GiftBatch(rand, trig)[i].position;
      assert p.x == Radial(trig.cosPi(a), dist) && p.z == Radial(trig.sinPi(a), dist);
    }
  }

  lemma SquareBetween(x: real, lo: real, hi: real)
    requires 0.0 <= lo <= x < hi
    ensures lo * lo <= x * x < hi * hi
  {
    MulNonNegative(x - lo, x + lo);
    assert (x - lo) * (x + lo) == x * x - lo * lo;
    MulPositive(hi - x, hi + x);
    assert (hi - x) * (hi + x) == hi * hi - x * x;
  }
}
