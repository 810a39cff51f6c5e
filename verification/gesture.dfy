/** The hand-tracking callback: it reduces the first detected hand to a single
    "fist" flag by comparing the summed wrist-to-fingertip distance in the image
    plane with a fixed threshold. */
module Gesture {
  import opened Common
  import opened AppModel

  datatype Landmark = Landmark(x: real, y: real, z: real)

  /** One detector result; `multiHandLandmarks` is absent or empty when no hand
      was found. */
  datatype HandResults = HandResults(multiHandLandmarks: Option<seq<seq<Landmark>>>)

  const LandmarksPerHand: nat := 21
  const Wrist: nat := 0
  /** Index, middle, ring and little fingertips. */
  const Fingertips: seq<nat> := [8, 12, 16, 20]
  const FistThreshold: real := 0.6

  /** Distance from the wrist to landmark `tip` in the x/y plane; `sqrt` stands
      for `Math.sqrt`. */
  function TipDistance(hand: seq<Landmark>, tip: nat, sqrt: real -> real): (d: real)
    requires Wrist < |hand| && tip < |hand|
    ensures (forall v :: 0.0 <= v ==> 0.0 <= sqrt(v)) ==> 0.0 <= d
    // a tip on the wrist's vertical line is at distance sqrt(0)
    ensures hand[tip].x == hand[Wrist].x && hand[tip].y == hand[Wrist].y ==> d == sqrt(0.0)
  {
    sqrt(SquaredLength(hand[tip].x - hand[Wrist].x, hand[tip].y - hand[Wrist].y))
  }

  function SquaredLength(dx: real, dy: real): real {
    dx * dx + dy * dy
  }

  /** `hand` with its depth coordinates replaced by `zs`. */
  function WithDepths(hand: seq<Landmark>, zs: seq<real>): (h: seq<Landmark>)
    requires |zs| == |hand|
    ensures |h| == |hand|
  {
    seq(|hand|, k requires 0 <= k < |hand| => Landmark(hand[k].x, hand[k].y, zs[k]))
  }

  /** The distance is measured in the image plane: the depths play no part. */
  lemma DepthIgnored(hand: seq<Landmark>, zs: seq<real>, tip: nat, sqrt: real -> real)
    requires Wrist < |hand| && tip < |hand| && |zs| == |hand|
    ensures TipDistance(WithDepths(hand, zs), tip, sqrt) == TipDistance(hand, tip, sqrt)
  {
    var h := WithDepths(hand, zs);
    assert h[tip].x == hand[tip].x && h[tip].y == hand[tip].y;
    assert h[Wrist].x == hand[Wrist].x && h[Wrist].y == hand[Wrist].y;
  }

  predicate TipsInHand(hand: seq<Landmark>, tips: seq<nat>) {
    Wrist < |hand| && forall k :: 0 <= k < |tips| ==> tips[k] < |hand|
  }

  /** The distances of `tips`, added up from left to right. */
  function SumOfTipDistances(hand: seq<Landmark>, tips: seq<nat>, sqrt: real -> real): real
    requires TipsInHand(hand, tips)
    decreases |tips|
  {
    if |tips| == 0 then 0.0
    else SumOfTipDistances(hand, tips[..|tips| - 1], sqrt) + TipDistance(hand, tips[|tips| - 1], sqrt)
  }

  /** The summed distance of the four fingertips, written out. */
  function FistDistance(hand: seq<Landmark>, sqrt: real -> real): real
    requires |hand| == LandmarksPerHand
  {
    TipDistance(hand, 8, sqrt) + TipDistance(hand, 12, sqrt) + TipDistance(hand, 16, sqrt) + TipDistance(hand, 20, sqrt)
  }

  /** Folding over the fingertip list gives the written-out sum. */
  lemma FoldIsFistDistance(hand: seq<Landmark>, sqrt: real -> real)
    requires |hand| == LandmarksPerHand
    ensures TipsInHand(hand, Fingertips)
    ensures SumOfTipDistances(hand, Fingertips, sqrt) == FistDistance(hand, sqrt)
  {
    assert Fingertips[..3] == [8, 12, 16] && [8, 12, 16][..2] == [8, 12];
    assert [8, 12][..1] == [8] && [8][..0] == [];
    assert SumOfTipDistances(hand, [8], sqrt) == TipDistance(hand, 8, sqrt);
    assert SumOfTipDistances(hand, [8, 12], sqrt) == TipDistance(hand, 8, sqrt) + TipDistance(hand, 12, sqrt);
    assert SumOfTipDistances(hand, [8, 12, 16], sqrt)
        == SumOfTipDistances(hand, [8, 12], sqrt) + TipDistance(hand, 16, sqrt);
    assert SumOfTipDistances(hand, Fingertips, sqrt)
        == SumOfTipDistances(hand, [8, 12, 16], sqrt) + TipDistance(hand, 20, sqrt);
  }

  /** The `forEach` over the four fingertips accumulating `totalDist`. */
  method TotalDistance(hand: seq<Landmark>, sqrt: real -> real) returns (total: real)
    requires |hand| == LandmarksPerHand
    ensures total == FistDistance(hand, sqrt)
  {
    total := 0.0;
    for k := 0 to |Fingertips|
      invariant total == SumOfTipDistances(hand, Fingertips[..k], sqrt)
    {
      assert Fingertips[..k + 1][..k] == Fingertips[..k];
      assert SumOfTipDistances(hand, Fingertips[..k + 1], sqrt)
          == SumOfTipDistances(hand, Fingertips[..k], sqrt) + TipDistance(hand, Fingertips[k], sqrt);
      total := total + TipDistance(hand, Fingertips[k], sqrt);
    }
    assert Fingertips[..|Fingertips|] == Fingertips;
    FoldIsFistDistance(hand, sqrt);
  }

  predicate HandPresent(results: HandResults) {
    results.multiHandLandmarks.Some? && |results.multiHandLandmarks.value| > 0
  }

  /** The detector reports every hand with its full set of landmarks. */
  predicate WellFormed(results: HandResults) {
    HandPresent(results) ==> |results.multiHandLandmarks.value[0]| == LandmarksPerHand
  }

  function FirstHand(results: HandResults): seq<Landmark>
    requires HandPresent(results)
  {
    results.multiHandLandmarks.value[0]
  }

  /** The state update the callback hands to the state setter: with a hand,
      `isFist` becomes whether the summed distance is under the threshold;
      without one it becomes false. Nothing else changes. */
  method OnResults(prev: AppState, results: HandResults, sqrt: real -> real) returns (next: AppState)
    requires WellFormed(results)
    ensures HandPresent(results) ==>
      next.isFist == (FistDistance(FirstHand(results), sqrt) < FistThreshold)
    ensures !HandPresent(results) ==> !next.isFist
    ensures next.isWakingUp == prev.isWakingUp && next.isFormed == prev.isFormed
    ensures next.cameraActive == prev.cameraActive
  {
    if HandPresent(results) {
      var landmarks := results.multiHandLandmarks.value[0];
      var totalDist := TotalDistance(landmarks, sqrt);
      next := prev.(isFist := totalDist < FistThreshold);
    } else {
      next := prev.(isFist := false);
    }
  }

  /** With non-negative distances, a fist needs every one of the four
      fingertips within the threshold of the wrist. */
  lemma FistHasEveryTipClose(hand: seq<Landmark>, sqrt: real -> real)
    requires |hand| == LandmarksPerHand
    requires forall k :: 0 <= k < |Fingertips| ==> TipDistance(hand, Fingertips[k], sqrt) >= 0.0
    requires FistDistance(hand, sqrt) < FistThreshold
    ensures forall k :: 0 <= k < |Fingertips| ==> TipDistance(hand, Fingertips[k], sqrt) < FistThreshold
  {
    FoldIsFistDistance(hand, sqrt);
    forall k | 0 <= k < |Fingertips|
      ensures TipDistance(hand, Fingertips[k], sqrt) < FistThreshold
    {
      PartsBelowSum(hand, Fingertips, sqrt, k);
    }
  }

  /** Each distance in a sum of non-negative distances is at most the sum. */
  lemma {:induction false} PartsBelowSum(hand: seq<Landmark>, tips: seq<nat>, sqrt: real -> real, k: nat)
    requires TipsInHand(hand, tips)
    requires forall j :: 0 <= j < |tips| ==> TipDistance(hand, tips[j], sqrt) >= 0.0
    requires k < |tips|
    ensures TipDistance(hand, tips[k], sqrt) <= SumOfTipDistances(hand, tips, sqrt)
    decreases |tips|
  {
    var init := tips[..|tips| - 1];
    assert TipsInHand(hand, init);
    SumNonNegative(hand, init, sqrt);
    if k < |tips| - 1 {
      assert init[k] == tips[k];
      PartsBelowSum(hand, init, sqrt, k);
    }
  }

  lemma {:induction false} SumNonNegative(hand: seq<Landmark>, tips: seq<nat>, sqrt: real -> real)
    requires TipsInHand(hand, tips)
    requires forall j :: 0 <= j < |tips| ==> TipDistance(hand, tips[j], sqrt) >= 0.0
    ensures SumOfTipDistances(hand, tips, sqrt) >= 0.0
    decreases |tips|
  {
    if |tips| > 0 {
      var init := tips[..|tips| - 1];
      assert TipsInHand(hand, init);
      assert forall j :: 0 <= j < |init| ==> init[j] == tips[j];
      SumNonNegative(hand, init, sqrt);
    }
  }

  /** A hand whose four fingertips each lie within a quarter of the threshold
      of the wrist is a fist. */
  lemma TightHandIsFist(hand: seq<Landmark>, sqrt: real -> real)
    requires |hand| == LandmarksPerHand
    requires forall k :: 0 <= k < |Fingertips| ==> TipDistance(hand, Fingertips[k], sqrt) < FistThreshold / 4.0
    ensures FistDistance(hand, sqrt) < FistThreshold
  {
    assert TipDistance(hand, Fingertips[0], sqrt) < FistThreshold / 4.0;
    assert TipDistance(hand, Fingertips[1], sqrt) < FistThreshold / 4.0;
    assert TipDistance(hand, Fingertips[2], sqrt) < FistThreshold / 4.0;
    assert TipDistance(hand, Fingertips[3], sqrt) < FistThreshold / 4.0;
  }
}
