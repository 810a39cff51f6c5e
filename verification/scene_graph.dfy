/** The scene handle the component keeps once the 3D scene is set up: the three
    particle buffers, the scene's top-level children, the decorations and gift
    groups, and the `treeFormed` flag. Its methods are the parts of the
    component that change this state in place. */
module SceneGraph {
  import opened Common
  import opened ParticleLayout
  import opened GiftLayout
  import opened Decorations
  import opened AppModel

  /** The top-level objects of the scene. */
  datatype Node = Particles | Halo | Star | DecorationsGroup | GiftsGroup | ProxyCone

  /** The children of a freshly built scene, in the order they are added. */
  const InitialChildren: seq<Node> := [Particles, Halo, Star, DecorationsGroup, GiftsGroup]

  /** `s` without its element at index `k`. */
  function RemoveAt<T>(s: seq<T>, k: nat): (r: seq<T>)
    requires k < |s|
    ensures |r| == |s| - 1
  {
    s[..k] + s[k + 1..]
  }

  /** The initialisation loop: particle `i` writes slots 3i..3i+2 of each
      buffer with its scattered start, its place on the tree and its colour. */
  method FillParticleBuffers(positions: array<real>, targets: array<real>, colours: array<real>,
                             rand: seq<real>, trig: Trig, iceBlue: Rgb, white: Rgb)
    requires positions.Length == 3 * ParticleCount
    requires targets.Length == 3 * ParticleCount
    requires colours.Length == 3 * ParticleCount
    requires positions != targets && positions != colours && targets != colours
    requires |rand| == DrawsPerParticle * ParticleCount
    modifies positions, targets, colours
    ensures positions[..] == PositionsBuffer(rand)
    ensures targets[..] == TargetsBuffer(trig)
    ensures colours[..] == ColoursBuffer(rand, iceBlue, white)
  {
    for i := 0 to ParticleCount
      invariant forall k :: 0 <= k < 3 * i ==> positions[k] == PositionAt(rand, k)
      invariant forall k :: 0 <= k < 3 * i ==> targets[k] == TargetAt(trig, k)
      invariant forall k :: 0 <= k < 3 * i ==> colours[k] == ColourAt(rand, iceBlue, white, k)
    {
      WriteParticle(positions, targets, colours, rand, trig, iceBlue, white, i);
    }
    assert positions[..] == PositionsBuffer(rand);
    assert targets[..] == TargetsBuffer(trig);
    assert colours[..] == ColoursBuffer(rand, iceBlue, white);
  }

  /** One turn of the initialisation loop: particle `i` fills its own three
      slots of each buffer and no others. */
  method WriteParticle(positions: array<real>, targets: array<real>, colours: array<real>,
                       rand: seq<real>, trig: Trig, iceBlue: Rgb, white: Rgb, i: nat)
    requires positions.Length == 3 * ParticleCount
    requires targets.Length == 3 * ParticleCount
    requires colours.Length == 3 * ParticleCount
    requires positions != targets && positions != colours && targets != colours
    requires |rand| == DrawsPerParticle * ParticleCount
    requires i < ParticleCount
    modifies positions, targets, colours
    ensures forall k :: 0 <= k < 3 * ParticleCount && !(3 * i <= k < 3 * i + 3) ==>
      positions[k] == old(positions[k]) && targets[k] == old(targets[k]) && colours[k] == old(colours[k])
    ensures forall k :: 3 * i <= k < 3 * i + 3 ==>
      positions[k] == PositionAt(rand, k) && targets[k] == TargetAt(trig, k)
      && colours[k] == ColourAt(rand, iceBlue, white, k)
  {
    SlotValues(rand, trig, iceBlue, white, i, 0);
    SlotValues(rand, trig, iceBlue, white, i, 1);
    SlotValues(rand, trig, iceBlue, white, i, 2);
    var d := DrawsPerParticle * i;
    WriteTriple(positions, i, Scatter(rand[d]), Scatter(rand[d + 1]), Scatter(rand[d + 2]));

    WriteTriple(targets, i, TargetCoord(i, 0, trig), TargetCoord(i, 1, trig), TargetCoord(i, 2, trig));

    var mix := rand[d + 3];
    WriteTriple(colours, i, Lerp(iceBlue.r, white.r, mix), Lerp(iceBlue.g, white.g, mix), Lerp(iceBlue.b, white.b, mix));

    forall k | 3 * i <= k < 3 * i + 3
      ensures positions[k] == PositionAt(rand, k) && targets[k] == TargetAt(trig, k)
      ensures colours[k] == ColourAt(rand, iceBlue, white, k)
    {
      var c := k - 3 * i;
      assert k == Slot(i, c);
      if c == 0 {
        assert targets[k] == TargetCoord(i, 0, trig);
      } else if c == 1 {
        assert targets[k] == TargetCoord(i, 1, trig);
      } else {
        assert targets[k] == TargetCoord(i, 2, trig);
      }
    }
  }

  /** Writes the x, y, z slots of particle `i` of a flat buffer, and nothing
      else. */
  method WriteTriple(buf: array<real>, i: nat, x: real, y: real, z: real)
    requires 3 * i + 3 <= buf.Length
    modifies buf
    ensures buf[3 * i] == x && buf[3 * i + 1] == y && buf[3 * i + 2] == z
    ensures forall k :: 0 <= k < buf.Length && !(3 * i <= k < 3 * i + 3) ==> buf[k] == old(buf[k])
  {
    buf[3 * i] := x;
    buf[3 * i + 1] := y;
    buf[3 * i + 2] := z;
  }

  class SceneHandle {
    const positions: array<real>
    const targetPositions: array<real>
    const colours: array<real>
    var children: seq<Node>
    var decorations: seq<Decoration>
    var gifts: seq<Gift>
    var treeFormed: bool

    ghost predicate Valid()
      reads this
    {
      && positions.Length == 3 * ParticleCount
      && targetPositions.Length == 3 * ParticleCount
      && colours.Length == 3 * ParticleCount
      && positions != targetPositions && positions != colours && targetPositions != colours
      // the gifts group is filled exactly once, when the tree forms
      && |gifts| == (if treeFormed then GiftCount else 0)
    }

    /** Building the scene: the particle buffers filled from the draws, the
        five top-level children, empty groups, and the tree not yet formed. */
    constructor (rand: seq<real>, trig: Trig, iceBlue: Rgb, white: Rgb)
      requires |rand| == DrawsPerParticle * ParticleCount
      ensures Valid()
      ensures fresh(positions) && fresh(targetPositions) && fresh(colours)
      ensures positions[..] == PositionsBuffer(rand)
      ensures targetPositions[..] == TargetsBuffer(trig)
      ensures colours[..] == ColoursBuffer(rand, iceBlue, white)
      ensures children == InitialChildren && decorations == [] && gifts == []
      ensures !treeFormed
    {
      var p := new real[3 * ParticleCount];
      var t := new real[3 * ParticleCount];
      var c := new real[3 * ParticleCount];
      FillParticleBuffers(p, t, c, rand, trig, iceBlue, white);
      positions, targetPositions, colours := p, t, c;
      children := InitialChildren;
      decorations, gifts := [], [];
      treeFormed := false;
    }

    /** `addGifts` on the gifts group: 90 gifts appended in order. */
    method AddGifts(rand: seq<real>, trig: Trig)
      requires |rand| == DrawsPerGift * GiftCount && AllUnit(rand)
      modifies this
      ensures gifts == old(gifts) + GiftBatch(rand, trig)
      ensures children == old(children) && decorations == old(decorations)
      ensures treeFormed == old(treeFormed)
    {
      for i := 0 to GiftCount
        invariant gifts == old(gifts) + GiftBatch(rand, trig)[..i]
        invariant children == old(children) && decorations == old(decorations)
        invariant treeFormed == old(treeFormed)
      {
        var gift := MakeGift(i, DrawsOf(rand, i), trig);
        gifts := gifts + [gift];
        assert GiftBatch(rand, trig)[..i + 1] == GiftBatch(rand, trig)[..i] + [gift];
      }
      assert GiftBatch(rand, trig)[..GiftCount] == GiftBatch(rand, trig);
    }

    /** The completion callback of the particle tween: the particles rest on
        their targets, the scene is marked formed and the gifts are added. */
    method CompleteFormation(rand: seq<real>, trig: Trig)
      requires Valid() && !treeFormed
      requires |rand| == DrawsPerGift * GiftCount && AllUnit(rand)
      modifies this, positions
      ensures Valid()
      ensures positions[..] == targetPositions[..]
      ensures targetPositions[..] == old(targetPositions[..]) && colours[..] == old(colours[..])
      ensures treeFormed
      ensures gifts == old(gifts) + GiftBatch(rand, trig)
      ensures children == old(children) && decorations == old(decorations)
    {
      forall k | 0 <= k < positions.Length {
        positions[k] := targetPositions[k];
      }
      treeFormed := true;
      AddGifts(rand, trig);
    }

    /** A click with the tree formed: the invisible proxy cone is added, the
        first hit (if any) gets a decoration of the selected kind, and the cone
        is removed again. `hits` are the cone's intersections with the click
        ray, nearest first. */
    method PlaceOnClick(selected: string, hits: seq<Vec3>, scaleDraw: real, swayDraw: real, durationDraw: real)
      modifies this
      ensures children == old(children)
      ensures decorations == if |hits| > 0
        then old(decorations) + [Place(KindOf(selected), hits[0], scaleDraw, swayDraw, durationDraw)]
        else old(decorations)
      ensures gifts == old(gifts) && treeFormed == old(treeFormed)
    {
      var coneIndex := |children|;
      children := children + [ProxyCone];
      if |hits| > 0 {
        var item := Place(KindOf(selected), hits[0], scaleDraw, swayDraw, durationDraw);
        decorations := decorations + [item];
      }
      children := RemoveAt(children, coneIndex);
      assert children == old(children);
    }
  }

  /** `handleClick`: ignored unless the tree is formed and the scene exists. */
  method HandleClick(scene: SceneHandle?, app: AppState, selected: string, hits: seq<Vec3>,
                     scaleDraw: real, swayDraw: real, durationDraw: real)
    modifies scene
    ensures scene != null ==> scene.children == old(scene.children) && scene.gifts == old(scene.gifts)
    ensures scene != null ==> scene.treeFormed == old(scene.treeFormed)
    ensures scene != null && !app.isFormed ==> unchanged(scene)
    ensures scene != null && !app.isFormed ==> scene.decorations == old(scene.decorations)
    ensures scene != null && app.isFormed ==> scene.decorations == if |hits| > 0
      then old(scene.decorations) + [Place(KindOf(selected), hits[0], scaleDraw, swayDraw, durationDraw)]
      else old(scene.decorations)
  {
    if !app.isFormed || scene == null {
      return;
    }
    scene.PlaceOnClick(selected, hits, scaleDraw, swayDraw, durationDraw);
  }
}
