/**
 * One clickable planet: a hover flag that follows the pointer, a click that reports the
 * planet's section id, and a hover-dependent scale and name label.
 */
module Planet {
  import opened Wrappers
  import opened Portfolio

  const DefaultRadius: real := 2.0
  const DefaultColor: string := "#6ee7b7"
  const HoverScale: real := 1.15

  /** The component's props; `radius` and `color` may be omitted. */
  datatype Props = Props(sectionId: SectionId, name: string, radius: Option<real>, color: Option<string>)

  /** The radius the sphere is drawn with. */
  function Radius(p: Props): (r: real)
    ensures p.radius.None? ==> r == DefaultRadius
    ensures p.radius.Some? ==> r == p.radius.value
  {
    p.radius.GetOr(DefaultRadius)
  }

  /** The colour of the material. */
  function Color(p: Props): (r: string)
    ensures p.color.None? ==> r == DefaultColor
    ensures p.color.Some? ==> r == p.color.value
  {
    p.color.GetOr(DefaultColor)
  }

  /** Pointer events on the sphere. */
  datatype PointerEvent = PointerOver | PointerOut | Click

  /** `useState(false)` */
  const InitialHovered := false

  /** The hover flag after an event: over sets it, out clears it, a click keeps it. */
  function OnEvent(hovered: bool, e: PointerEvent): bool {
    match e
    case PointerOver => true
    case PointerOut => false
    case Click => hovered
  }

  /** What an event asks the parent to do: a click selects this planet's section. */
  function Selected(p: Props, e: PointerEvent): (r: Option<SectionId>)
    ensures r.Some? <==> e == Click
    ensures r.Some? ==> r.value == p.sectionId
  {
    if e == Click then Some(p.sectionId) else None
  }

  /** The hover flag after the events `evs`, from the initial flag. */
  function Hovered(evs: seq<PointerEvent>): bool {
    if evs == [] then InitialHovered else OnEvent(Hovered(evs[..|evs| - 1]), evs[|evs| - 1])
  }

  /** The latest hover event, if any: over or out. */
  function LatestHover(evs: seq<PointerEvent>): Option<PointerEvent> {
    if evs == [] then None
    else if evs[|evs| - 1] != Click then Some(evs[|evs| - 1])
    else LatestHover(evs[..|evs| - 1])
  }

  /**
   * The planet is hovered exactly when the latest over/out event was an over; clicks do not
   * change it, and it starts unhovered.
   */
  lemma {:induction false} HoverFollowsPointer(evs: seq<PointerEvent>)
    ensures Hovered(evs) <==> LatestHover(evs) == Some(PointerOver)
  {
    if evs != [] {
      HoverFollowsPointer(evs[..|evs| - 1]);
    }
  }

  /** What is drawn: the sphere's scale and radius, its colour, and the name tag if any. */
  datatype View = View(scale: real, radius: real, color: string, nameTag: Option<string>)

  function Render(p: Props, hovered: bool): (v: View)
    ensures v.scale == (if hovered then HoverScale else 1.0)
    ensures v.nameTag.Some? <==> hovered
    ensures v.nameTag.Some? ==> v.nameTag.value == p.name
    ensures v.radius == Radius(p) && v.color == Color(p)
  {
    View(if hovered then HoverScale else 1.0, Radius(p), Color(p), if hovered then Some(p.name) else None)
  }

  /** A hovered planet is drawn larger than an unhovered one, and only it carries the name tag. */
  lemma HoverEnlarges(p: Props)
    ensures Render(p, true).scale > Render(p, false).scale
    ensures Render(p, true).nameTag == Some(p.name) && Render(p, false).nameTag.None?
  {
  }
}
