/**
 * The scene: one planet per section laid out around the sun by index, and the id of the
 * section whose overlay is open. A planet click opens its section; the overlay's close
 * triggers clear it.
 */
module PortfolioWorld {
  import opened Wrappers
  import opened Geometry
  import opened Portfolio
  import Planet
  import InfoPanel

  const RadiusBase: real := 22.0
  const OrbitStep: real := 14.0
  const Palette: seq<string> := ["#67e8f9", "#a78bfa", "#34d399", "#f472b6", "#f59e0b"]

  /** What the layout computes for one section. */
  datatype PlanetDef = PlanetDef(id: SectionId, name: string, position: Vec3, radius: real, color: string)

  /** The distance of planet `i` from the sun. */
  function OrbitRadius(i: nat): real {
    RadiusBase + (i as real) * OrbitStep
  }

  /** The angle of planet `i` of `n` around the sun: `(i / n) * 2π + π / 6`. */
  function Angle(t: Trig, i: nat, n: nat): real
    requires n > 0
  {
    (i as real) / (n as real) * t.pi * 2.0 + t.pi / 6.0
  }

  /** The vertical offset of planet `i`: up for even indices, down for odd ones. */
  function Height(i: nat): real {
    (if i % 2 == 0 then 1.0 else -1.0) * (2.0 + i as real)
  }

  function BodyRadius(i: nat): real {
    2.0 + 0.5 * (i as real)
  }

  function PaletteColor(i: nat): string {
    Palette[i % |Palette|]
  }

  /** The planet for section `s` at index `i` of `n`. */
  function PlanetAt(s: Section, t: Trig, i: nat, n: nat): PlanetDef
    requires n > 0
  {
    var r := OrbitRadius(i);
    var angle := Angle(t, i, n);
    PlanetDef(s.id, s.name, Vec3(t.cos(angle) * r, Height(i), t.sin(angle) * r), BodyRadius(i), PaletteColor(i))
  }

  /** `sections.map((s, i) => ...)`: one planet per section, in section order. */
  function PlanetDefs(table: seq<Section>, t: Trig): (r: seq<PlanetDef>)
    ensures |r| == |table|
    ensures forall i :: 0 <= i < |table| ==> r[i].id == table[i].id && r[i].name == table[i].name
  {
    seq(|table|, i requires 0 <= i < |table| => PlanetAt(table[i], t, i, |table|))
  }

  /** Planet `i` sits at height ±(2 + i), with body radius 2 + i/2 and palette colour i mod 5. */
  lemma PlanetShape(table: seq<Section>, t: Trig, i: nat)
    requires i < |table|
    ensures var p := PlanetDefs(table, t)[i];
            (i % 2 == 0 ==> p.position.y == 2.0 + i as real) &&
            (i % 2 == 1 ==> p.position.y == -(2.0 + i as real)) &&
            p.radius == 2.0 + 0.5 * (i as real) &&
            p.color == Palette[i % 5]
  {
  }

  /** Planet `i` lies in direction `Angle(t, i, n)` at horizontal distance `OrbitRadius(i)`. */
  lemma PlanetPlacement(table: seq<Section>, t: Trig, i: nat)
    requires i < |table|
    ensures var p := PlanetDefs(table, t)[i];
            var a := Angle(t, i, |table|);
            p.position.x == t.cos(a) * OrbitRadius(i) && p.position.z == t.sin(a) * OrbitRadius(i)
  {
  }

  /** Successive orbits are 14 apart, starting at 22: for five sections, 22, 36, 50, 64 and 78. */
  lemma OrbitRadii(i: nat)
    ensures OrbitRadius(0) == 22.0
    ensures OrbitRadius(i + 1) == OrbitRadius(i) + 14.0
    ensures [OrbitRadius(0), OrbitRadius(1), OrbitRadius(2), OrbitRadius(3), OrbitRadius(4)] == [22.0, 36.0, 50.0, 64.0, 78.0]
  {
  }

  /** The colours repeat every five planets; the five sections get five different colours. */
  lemma PaletteCycles(i: nat)
    ensures PaletteColor(i + 5) == PaletteColor(i)
    ensures forall j, k :: 0 <= j < k < 5 ==> PaletteColor(j) != PaletteColor(k)
  {
  }

  /** The first planet stands at π/6 from the x axis; the others follow at equal steps of 2π/n. */
  lemma FirstAngle(t: Trig, n: nat)
    requires n > 0
    ensures Angle(t, 0, n) == t.pi / 6.0
    ensures forall i: nat :: Angle(t, i + 1, n) - Angle(t, i, n) == 2.0 * t.pi / (n as real)
  {
  }

  lemma {:induction false} ScaledUnitCircle(c: real, s: real, r: real)
    requires c * c + s * s == 1.0
    ensures (c * r) * (c * r) + (s * r) * (s * r) == r * r
  {
    assert (c * r) * (c * r) == (c * c) * (r * r);
    assert (s * r) * (s * r) == (s * s) * (r * r);
    assert (c * c) * (r * r) + (s * s) * (r * r) == (c * c + s * s) * (r * r);
  }

  /**
   * The decorative ring of planet `i` has radius `hypot(x, z)`: given cos² + sin² = 1, that is
   * exactly the planet's orbit radius, so each planet sits on its own ring.
   */
  lemma {:induction false} OrbitRing(table: seq<Section>, t: Trig, i: nat, h: real)
    requires Pythagorean(t) && i < |table|
    requires IsHypot(h, PlanetDefs(table, t)[i].position.x, PlanetDefs(table, t)[i].position.z)
    ensures h == OrbitRadius(i)
  {
    var a := Angle(t, i, |table|);
    var p := PlanetDefs(table, t)[i];
    assert t.cos(a) * t.cos(a) + t.sin(a) * t.sin(a) == 1.0;
    ScaledUnitCircle(t.cos(a), t.sin(a), OrbitRadius(i));
    assert IsHypot(OrbitRadius(i), p.position.x, p.position.z);
    HypotUnique(h, OrbitRadius(i), p.position.x, p.position.z);
  }

  /** The props each planet is mounted with. */
  function PlanetProps(p: PlanetDef): (r: Planet.Props)
    ensures r.sectionId == p.id && Planet.Radius(r) == p.radius && Planet.Color(r) == p.color
  {
    Planet.Props(p.id, p.name, Some(p.radius), Some(p.color))
  }

  /** Events that reach the scene: pointer events on planet `index`, or overlay events. */
  datatype WorldEvent = PlanetEvent(index: nat, pointer: Planet.PointerEvent) | PanelEvent(ui: InfoPanel.UiEvent)

  /** Whether the event is a click on one of the planets. */
  predicate IsPlanetClick(defs: seq<PlanetDef>, ev: WorldEvent) {
    ev.PlanetEvent? && ev.index < |defs| && ev.pointer == Planet.Click
  }

  /** `openId` after an event: a click on a planet opens its section; a close trigger clears it; nothing else changes it. */
  function Dispatch(openId: Option<SectionId>, defs: seq<PlanetDef>, ev: WorldEvent): (r: Option<SectionId>)
    ensures IsPlanetClick(defs, ev) ==> r == Some(defs[ev.index].id)
    ensures ev.PlanetEvent? && !IsPlanetClick(defs, ev) ==> r == openId
    ensures ev.PanelEvent? ==> r == openId || r.None?
  {
    match ev
    case PlanetEvent(i, e) =>
      if i < |defs| && Planet.Selected(PlanetProps(defs[i]), e).Some? then Planet.Selected(PlanetProps(defs[i]), e)
      else openId
    case PanelEvent(e) => if InfoPanel.CallsClose(openId, e) then None else openId
  }

  /** `useState<SectionId | null>(null)` */
  const InitialOpenId: Option<SectionId> := None

  /** Clicking planet `i` opens section `i`, and the overlay shows that section. */
  lemma {:induction false} ClickOpensSection(openId: Option<SectionId>, t: Trig, i: nat)
    requires i < |Sections|
    ensures var next := Dispatch(openId, PlanetDefs(Sections, t), PlanetEvent(i, Planet.Click));
            next == Some(Sections[i].id) &&
            InfoPanel.Render(next) == Some(InfoPanel.PanelView(Sections[i].name, Sections[i].short, InfoPanel.BlockFor(Sections[i])))
  {
    SectionIdsDistinct();
    InfoPanel.FindDistinct(Sections, i);
  }

  /** Hovering a planet never changes the selection. */
  lemma HoverKeepsSelection(openId: Option<SectionId>, defs: seq<PlanetDef>, i: nat, e: Planet.PointerEvent)
    requires e != Planet.Click
    ensures Dispatch(openId, defs, PlanetEvent(i, e)) == openId
  {
  }

  /** Escape always closes; every other key leaves the selection alone. */
  lemma EscapeCloses(openId: Option<SectionId>, defs: seq<PlanetDef>, key: string)
    ensures Dispatch(openId, defs, PanelEvent(InfoPanel.KeyDown(key))) == if key == "Escape" then None else openId
  {
  }

  /** Backdrop and close button close an open section; a click inside the panel does not. */
  lemma {:induction false} ClicksOnOverlay(id: SectionId, defs: seq<PlanetDef>)
    ensures Dispatch(Some(id), defs, PanelEvent(InfoPanel.BackdropClick)) == None
    ensures Dispatch(Some(id), defs, PanelEvent(InfoPanel.CloseButtonClick)) == None
    ensures Dispatch(Some(id), defs, PanelEvent(InfoPanel.PanelClick)) == Some(id)
  {
    InfoPanel.ClickTargets(id);
  }

  /** Closing is idempotent: with nothing open, no overlay event opens anything. */
  lemma CloseIdempotent(defs: seq<PlanetDef>, e: InfoPanel.UiEvent)
    ensures Dispatch(None, defs, PanelEvent(e)) == None
  {
  }

  /** `openId` after the events `evs`, from the initial null. */
  function Run(defs: seq<PlanetDef>, evs: seq<WorldEvent>): Option<SectionId> {
    if evs == [] then InitialOpenId else Dispatch(Run(defs, evs[..|evs| - 1]), defs, evs[|evs| - 1])
  }

  /** Whatever is open was opened by the latest click on a planet, which carries that id. */
  lemma {:induction false} OpenIdFromLatestClick(defs: seq<PlanetDef>, evs: seq<WorldEvent>)
    requires Run(defs, evs).Some?
    ensures exists k :: 0 <= k < |evs| && IsPlanetClick(defs, evs[k]) && defs[evs[k].index].id == Run(defs, evs).value &&
                        forall j :: k < j < |evs| ==> !IsPlanetClick(defs, evs[j])
  {
    var init := evs[..|evs| - 1];
    var last := evs[|evs| - 1];
    if IsPlanetClick(defs, last) {
      assert IsPlanetClick(defs, evs[|evs| - 1]);
    } else {
      assert Run(defs, evs) == Run(defs, init) by {
        if last.PlanetEvent? {
          assert !(last.index < |defs| && last.pointer == Planet.Click);
        }
      }
      OpenIdFromLatestClick(defs, init);
      var k :| 0 <= k < |init| && IsPlanetClick(defs, init[k]) && defs[init[k].index].id == Run(defs, init).value &&
               forall j :: k < j < |init| ==> !IsPlanetClick(defs, init[j]);
      assert evs[k] == init[k];
      assert forall j :: k < j < |evs| - 1 ==> evs[j] == init[j];
    }
  }

  /** Every id the scene can hold names a section the overlay can show. */
  lemma {:induction false} OpenSectionAlwaysShown(openId: Option<SectionId>)
    ensures InfoPanel.Render(openId).Some? <==> openId.Some?
  {
    if openId.Some? {
      InfoPanel.RenderShowsSection(openId.value);
    }
  }
}
