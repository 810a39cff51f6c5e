/** The decoration kinds a click can place, the string-to-kind dispatch of the
    click handler, and the values a placed decoration starts from. */
module Decorations {
  import opened Common

  datatype Kind = Westie | Bell | Ornament | Snowflake | CandyCane

  /** The identifier the selection bar uses for each kind. */
  function IdOf(k: Kind): string {
    match k
    case Westie => "westie"
    case Bell => "bell"
    case Ornament => "ornament"
    case Snowflake => "snowflake"
    case CandyCane => "candycane"
  }

  /** The five identifiers the dispatch matches explicitly. */
  predicate IsExplicitId(id: string) {
    id == "westie" || id == "bell" || id == "ornament" || id == "snowflake" || id == "candycane"
  }

  /** The `switch` on the selected decoration: each known identifier picks its
      own builder, anything else falls back to the westie builder. */
  function KindOf(selected: string): (k: Kind)
    ensures IsExplicitId(selected) <==> IdOf(k) == selected
    ensures !IsExplicitId(selected) ==> k == Westie
  {
    match selected
    case "westie" => Westie
    case "bell" => Bell
    case "ornament" => Ornament
    case "snowflake" => Snowflake
    case "candycane" => CandyCane
    case _ => Westie
  }

  /** Dispatching on a kind's own identifier gives that kind back. */
  lemma DispatchRoundTrip(k: Kind)
    ensures IsExplicitId(IdOf(k))
    ensures KindOf(IdOf(k)) == k
  {
    match k
    case Westie =>
    case Bell =>
    case Ornament =>
    case Snowflake =>
    case CandyCane =>
  }

  /** A placed decoration: where it sits, the point it is turned to face, its
      current scale, the scale its entrance tween ends at, and the amplitude and
      period of its idle sway. */
  datatype Decoration = Decoration(
    kind: Kind,
    position: Vec3,
    facing: Vec3,
    scale: real,
    targetScale: real,
    swayAmplitude: real,
    swayDuration: real)

  /** A decoration of kind `kind` placed at the hit point `point`. The three
      draws are, in order, the random target scale, the sway amplitude and the
      sway duration. */
  function Place(kind: Kind, point: Vec3, scaleDraw: real, swayDraw: real, durationDraw: real): (d: Decoration)
    ensures d.kind == kind && d.position == point
    // it looks away from the tree's vertical axis, horizontally
    ensures d.facing.y == point.y
    ensures d.facing.x - d.position.x == point.x && d.facing.z - d.position.z == point.z
    ensures d.scale == 0.0
    ensures IsUnit(scaleDraw) ==> 0.4 <= d.targetScale < 1.2
    ensures IsUnit(swayDraw) ==> 0.15 <= d.swayAmplitude < 0.4
    ensures IsUnit(durationDraw) ==> 1.2 <= d.swayDuration < 2.2
  {
    Decoration(
      kind,
      point,
      Vec3(point.x * 2.0, point.y, point.z * 2.0),
      0.0,
      0.4 + scaleDraw * 0.8,
      0.15 + swayDraw * 0.25,
      1.2 + durationDraw)
  }
}
