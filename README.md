# Cosmic portfolio — the control, selection and layout logic in Dafny

The portfolio is a 3D scene in the browser. An astronaut avatar is steered with the keyboard or with an on-screen gamepad. Planets circle a sun, one per portfolio section. Clicking a planet opens an overlay with that section's content. This project models the discrete logic under that scene and proves its properties:

- **Control record** (`ControlVector`). Six booleans: forward, back, left, right, up and down. An update writes one field and copies the other five.
- **Keyboard** (`Keyboard`). A fixed table maps eleven key codes to the six fields. Key-down sets the mapped field and key-up clears it. Any other code changes nothing.
- **Frame step** (`AvatarMotion`). The imperative per-frame step of the avatar is a class `Avatar` with fields for the group handle, the heading, the position and the velocity. The step:
  - does nothing while the handle is null;
  - turns the heading by `±2.2·dt`;
  - adds an acceleration of `25·dt` along the normalised thrust when the thrust has positive squared length;
  - rescales a velocity faster than 15 to speed 15, then multiplies it by `exp(-6·dt)`;
  - moves the position by `velocity·dt`.

  The host's `Math.cos`, `Math.sin`, `Math.PI`, `Math.exp`, `Vector3.lengthSq`, `Vector3.length` and `Vector3.normalize` are supplied as values (`Geometry.Trig`, `AvatarMotion.Host`). Each proof names the facts it assumes about them: cos² + sin² = 1; `lengthSq` is the sum of the squared components; `length` is its non-negative square root; `normalize` divides by the length.
- **On-screen gamepad** (`VirtualGamepad`). Six buttons, each bound to one field. A press gesture sets the field and a release gesture clears it. Every new record is reported to the parent. Nothing is rendered off mobile.
- **Mobile test** (`MobileDetect`). A device is mobile when its window is narrower than 768 pixels, its pointer is coarse, or it reports touch support. The hook reports `false` until its first check has run.
- **Content table** (`Portfolio`). Five sections with distinct ids, in a fixed order.
- **Planet** (`Planet`). A hover flag follows the pointer. A click selects the planet's own section. The planet is drawn at scale 1.15 and shows its name tag while hovered. Default props are radius 2 and colour `#6ee7b7`.
- **Overlay** (`InfoPanel`). It looks up the open section by id and picks one content block by the section's id. Escape, a backdrop click and the close button ask the parent to close.
- **Scene** (`PortfolioWorld`). Planet `i` of `n` is laid out with:
  - orbit radius `22 + 14i`;
  - height `±(2 + i)`;
  - body radius `2 + i/2`;
  - palette colour `i mod 5`;
  - angle `(i/n)·2π + π/6`.

  The scene also holds the `openId` selection, which the planet clicks and the overlay's close triggers drive.

A per-field count of held keys would keep a field set while any of its keys is down. The code keeps one flag per field instead, and the model follows the code. Releasing `ArrowUp` clears `forward` even while `KeyW` is still held (`Keyboard.SharedReleaseClearsField`).

## Model

| member | source | states |
|---|---|---|
| ControlVector.With | src/components/three/Astronaut.tsx:51 | `{...c, [k]: v}` gives field `k` the value `v` and leaves the other five fields unchanged |
| ControlVector.Extensional | src/components/three/Astronaut.tsx:7-14 | two records that agree on all six fields are equal |
| ControlVector.WithIdempotent | src/components/controls/VirtualGamepad.tsx:35 | writing a field with the value it already holds returns the same record |
| Keyboard.KeyMapCodes | src/components/three/Astronaut.tsx:16-28 | the table maps exactly the eleven listed codes; every other code is unmapped |
| Keyboard.KeyMapFields | src/components/three/Astronaut.tsx:16-28 | KeyW/ArrowUp drive forward, KeyS/ArrowDown back, KeyA/ArrowLeft left, KeyD/ArrowRight right, Space up, ShiftLeft/ShiftRight down |
| Keyboard.InitialControls | src/components/three/Astronaut.tsx:39-46 | all six controls start false |
| Keyboard.OnKeyDown | src/components/three/Astronaut.tsx:49-52 | a mapped code sets its field and keeps the other five; an unmapped code changes nothing |
| Keyboard.OnKeyUp | src/components/three/Astronaut.tsx:53-56 | a mapped code clears its field and keeps the other five; an unmapped code changes nothing |
| Keyboard.LastWriterWins | src/components/three/Astronaut.tsx:48-56 | after any key sequence, a field holds the kind (down or up) of the latest event on any of its codes, or its start value if there was none |
| Keyboard.SetFieldHasHeldKey | src/components/three/Astronaut.tsx:48-56 | a field that is set after a key sequence has one of its own keys still held |
| Keyboard.SharedReleaseClearsField | src/components/three/Astronaut.tsx:53-56 | after KeyW down, ArrowUp down and ArrowUp up, KeyW is still held but forward is false |
| Geometry.HypotUnique | src/components/three/PortfolioWorld.tsx:94 | `Math.hypot(x, z)` is the only non-negative number whose square is x² + z² |
| AvatarMotion.TurnDelta | src/components/three/Astronaut.tsx:98-103 | the heading change is +2.2·dt for left alone, −2.2·dt for right alone, and 0 for both or neither |
| AvatarMotion.ForwardDir | src/components/three/Astronaut.tsx:106 | definition of the forward axis `(-sin yaw, 0, -cos yaw)`; its properties are `ForwardDirIsUnit` and `AccelerationGate` |
| AvatarMotion.Thrust | src/components/three/Astronaut.tsx:109-114 | definition of `dv`; its properties are `ThrustShape`, `ThrustLength`, `LateralControlsNoThrust` and `AccumulateThrust` |
| AvatarMotion.Accelerate | src/components/three/Astronaut.tsx:115-118 | definition of the acceleration stage; its properties are `CancelledControlsCoast` and `UncancelledControlsAccelerate` |
| AvatarMotion.ForwardDirIsUnit | src/components/three/Astronaut.tsx:106 | the forward axis is horizontal and has unit length |
| AvatarMotion.ThrustShape | src/components/three/Astronaut.tsx:110-114 | component by component, forward and back cancel, one of them alone gives ±forward, and up/down give a vertical ±1 or 0 |
| AvatarMotion.HorizontalThrust | src/components/three/Astronaut.tsx:111-112 | the horizontal part of `dv` has squared length 1 when forward differs from back, else 0 |
| AvatarMotion.VerticalThrust | src/components/three/Astronaut.tsx:113-114 | the vertical part of `dv` has squared length 1 when up differs from down, else 0 |
| AvatarMotion.ThrustLength | src/components/three/Astronaut.tsx:110-115 | `dv.lengthSq()` counts the uncancelled pairs (forward against back, up against down) |
| AvatarMotion.AccelerationGate | src/components/three/Astronaut.tsx:110-118 | `dv.lengthSq() > 0` exactly when forward ≠ back or up ≠ down |
| AvatarMotion.LateralControlsNoThrust | src/components/three/Astronaut.tsx:110-114 | left and right never change `dv` |
| AvatarMotion.CancelledControlsCoast | src/components/three/Astronaut.tsx:115-118 | with both pairs cancelled, the acceleration stage leaves the velocity unchanged |
| AvatarMotion.UncancelledControlsAccelerate | src/components/three/Astronaut.tsx:115-118 | with an uncancelled pair, the stage adds `accel·dt` times the normalised `dv` |
| AvatarMotion.Clamp | src/components/three/Astronaut.tsx:120-124 | definition of the speed clamp; its property is `ClampCapsSpeed` |
| AvatarMotion.Settle | src/components/three/Astronaut.tsx:120-128 | definition of the clamp followed by damping by `exp(-6·dt)`; its property is `SettleBoundsSpeed` |
| AvatarMotion.ClampCapsSpeed | src/components/three/Astronaut.tsx:120-124 | a velocity of speed at most 15 passes unchanged; a faster one leaves with speed exactly 15; so the result never exceeds 15 |
| AvatarMotion.SettleBoundsSpeed | src/components/three/Astronaut.tsx:120-128 | with a damping factor in (0, 1], the velocity a frame leaves behind has squared speed at most 15², whatever it was before |
| AvatarMotion.AccumulateThrust | src/components/three/Astronaut.tsx:110-114 | the statement-by-statement accumulation of `dv` equals the thrust `Thrust(c, forwardDir)` |
| AvatarMotion.Avatar.constructor | src/components/three/Astronaut.tsx:35-36 | the handle starts null, with heading 0 and velocity zero; the position holds the start value (0, 2, 20) |
| AvatarMotion.Avatar.Mount | src/components/three/Astronaut.tsx:148 | attaching the group sets the handle and places the group at (0, 2, 20); heading and velocity are unchanged |
| AvatarMotion.Avatar.Turn | src/components/three/Astronaut.tsx:102-103 | the heading grows by `TurnDelta(c, dt)`; velocity and handle are unchanged |
| AvatarMotion.Avatar.ApplyThrust | src/components/three/Astronaut.tsx:115-118 | the velocity becomes `Accelerate(old velocity, dv, dt, host)`; heading and handle are unchanged |
| AvatarMotion.Avatar.Push | src/components/three/Astronaut.tsx:109-118 | the velocity gets the acceleration of the thrust of `c` along the given axis |
| AvatarMotion.Avatar.ClampSpeed | src/components/three/Astronaut.tsx:120-124 | the velocity becomes `Clamp(old velocity)`; handle, heading and position are unchanged |
| AvatarMotion.Avatar.Damp | src/components/three/Astronaut.tsx:127-128 | the velocity is multiplied by `exp(-6·dt)`; handle, heading and position are unchanged |
| AvatarMotion.Avatar.Integrate | src/components/three/Astronaut.tsx:131 | the position advances by `velocity·dt`; handle, heading and velocity are unchanged |
| AvatarMotion.Avatar.Frame | src/components/three/Astronaut.tsx:90-131 | with a null handle nothing changes; otherwise the heading turns by `TurnDelta`, the velocity is accelerated along the thrust of the turned forward axis and then clamped and damped (`Settle`), and the position advances by the new velocity times `dt` |
| Portfolio.AllIdsComplete | src/data/portfolio.ts:1 | the id type has exactly five values, listed once each |
| Portfolio.IdTextInjective | src/data/portfolio.ts:1 | different ids have different string values |
| Portfolio.SectionOrder | src/data/portfolio.ts:37-155 | the table has five entries with ids home, skills, experience, education, contact, in that order |
| Portfolio.SectionIdsDistinct | src/data/portfolio.ts:37-155 | no two sections share an id |
| Portfolio.EveryIdOnce | src/data/portfolio.ts:37-155 | every id is carried by exactly one section |
| Portfolio.ExperienceEntries | src/data/portfolio.ts:82-117 | the experience section lists three jobs, each with a non-empty bullet list |
| Portfolio.ContactComplete | src/data/portfolio.ts:146-152 | the contact section sets all five contact fields |
| MobileDetect.BreakpointIsStrict | src/hooks/use-mobile.tsx:3-19 | width 767 is a small screen and 768 is not |
| MobileDetect.SmallScreenDownwardClosed | src/hooks/use-mobile.tsx:19 | a narrower window than a small screen is also a small screen |
| MobileDetect.IsSmallScreen | src/hooks/use-mobile.tsx:19 | definition of the width test `innerWidth < 768`; its properties are `BreakpointIsStrict` and `SmallScreenDownwardClosed` |
| MobileDetect.IsTouchDevice | src/hooks/use-mobile.tsx:9-15 | definition of the touch test; its property is `AbsentMsTouchPointsIsZero` |
| MobileDetect.IsMobile | src/hooks/use-mobile.tsx:17-20 | definition of the mobile rule (small screen, coarse pointer or touch); its properties are `DesktopIsNotMobile` and `LatestCheckWins` |
| MobileDetect.DesktopIsNotMobile | src/hooks/use-mobile.tsx:9-20 | a window of 768 or more, with a fine pointer and no touch signal, is not mobile |
| MobileDetect.AbsentMsTouchPointsIsZero | src/hooks/use-mobile.tsx:13 | a missing `msMaxTouchPoints` counts as no touch, the same as 0 |
| MobileDetect.InitialHookState | src/hooks/use-mobile.tsx:6 | the state starts undefined |
| MobileDetect.Check | src/hooks/use-mobile.tsx:17-21 | a check stores whether the platform is mobile |
| MobileDetect.HookValue | src/hooks/use-mobile.tsx:32 | `!!isMobile` is true only for a stored `true` |
| MobileDetect.BeforeCheckNotMobile | src/hooks/use-mobile.tsx:6-32 | before the first check the hook returns false |
| MobileDetect.LatestCheckWins | src/hooks/use-mobile.tsx:23-29 | after any run of checks, the hook reports the answer for the latest platform |
| VirtualGamepad.ButtonFor | src/components/controls/VirtualGamepad.tsx:60-144 | every field has a button whose handlers name it |
| VirtualGamepad.Bound | src/components/controls/VirtualGamepad.tsx:56-153 | definition of the field each button's handlers name; its properties are `ButtonFor`, `BindingIsOneToOne` and `ButtonsCoverFields` |
| VirtualGamepad.BindingIsOneToOne | src/components/controls/VirtualGamepad.tsx:60-144 | a button is bound to a field exactly when it is that field's button: the binding is one-to-one and onto |
| VirtualGamepad.ButtonsCoverFields | src/components/controls/VirtualGamepad.tsx:56-153 | there are six buttons, bound to pairwise different fields, and every field's button is among them |
| VirtualGamepad.Handler | src/components/controls/VirtualGamepad.tsx:60-64 | every gesture on a button acts on that button's field; touchstart and mousedown press, and the others release |
| VirtualGamepad.ReleaseMatchesPress | src/components/controls/VirtualGamepad.tsx:60-64 | touchend, mouseup and mouseleave release the same field that touchstart and mousedown press |
| VirtualGamepad.HandlePress | src/components/controls/VirtualGamepad.tsx:34-36 | a press sets its field and keeps the other five |
| VirtualGamepad.HandleRelease | src/components/controls/VirtualGamepad.tsx:39-41 | a release clears its field and keeps the other five |
| VirtualGamepad.PressIdempotent | src/components/controls/VirtualGamepad.tsx:34-36 | pressing a pressed control changes nothing, and pressing twice equals pressing once |
| VirtualGamepad.ReleaseIdempotent | src/components/controls/VirtualGamepad.tsx:39-41 | releasing a released control changes nothing, and releasing twice equals releasing once |
| VirtualGamepad.ReleaseUndoesPress | src/components/controls/VirtualGamepad.tsx:34-41 | releasing a control that was free before the press restores the record |
| VirtualGamepad.Mount | src/components/controls/VirtualGamepad.tsx:19-31 | after mount the record is all false and has already been reported once |
| VirtualGamepad.Step | src/components/controls/VirtualGamepad.tsx:29-41 | a handler call updates the record and reports the new record to the parent |
| VirtualGamepad.StepKeepsSync | src/components/controls/VirtualGamepad.tsx:29-31 | after every handler call, the last report equals the current record |
| VirtualGamepad.ParentSeesEveryRecord | src/components/controls/VirtualGamepad.tsx:29-41 | after `n` handler calls the parent has had `n + 1` reports; report `k` is the whole record after the first `k` calls |
| VirtualGamepad.LatestActionWins | src/components/controls/VirtualGamepad.tsx:34-41 | a field is set exactly when the latest press or release on it was a press |
| VirtualGamepad.Render | src/components/controls/VirtualGamepad.tsx:44-153 | off mobile nothing is rendered; on mobile the six buttons are drawn in order, each lit exactly when its field is set |
| VirtualGamepad.HiddenBeforeCheck | src/components/controls/VirtualGamepad.tsx:18-46 | the pad renders nothing until the mobile check has run |
| Planet.Radius | src/components/three/Planet.tsx:16 | an omitted radius defaults to 2 |
| Planet.Color | src/components/three/Planet.tsx:16 | an omitted colour defaults to `#6ee7b7` |
| Planet.OnEvent | src/components/three/Planet.tsx:33-34 | definition of the hover toggle; its property is `HoverFollowsPointer` |
| Planet.Selected | src/components/three/Planet.tsx:33-38 | a click selects the planet's own section id; hover events select nothing |
| Planet.HoverFollowsPointer | src/components/three/Planet.tsx:17-34 | after any pointer sequence, the planet is hovered exactly when the latest over/out event was an over; it starts unhovered and clicks leave it alone |
| Planet.Render | src/components/three/Planet.tsx:39-65 | scale is 1.15 when hovered and 1 otherwise; the name tag exists exactly while hovered; radius and colour come from the props or their defaults |
| Planet.HoverEnlarges | src/components/three/Planet.tsx:39-46 | a hovered planet is larger than an unhovered one and alone carries the name tag |
| InfoPanel.Find | src/components/overlay/InfoPanel.tsx:121 | the lookup returns the first section with the open id, or nothing when no section has it or no id is open |
| InfoPanel.FindDistinct | src/components/overlay/InfoPanel.tsx:121 | in a table without repeated ids, looking up the id at index `i` returns entry `i` |
| InfoPanel.ShownStrings | src/components/overlay/InfoPanel.tsx:21-23 | a string appears exactly when it is present and non-empty |
| InfoPanel.ShownStringsAppend | src/components/overlay/InfoPanel.tsx:21-23 | the shown strings of a concatenation are those of each part in turn, so the order of the fields is kept |
| InfoPanel.ShownList | src/components/overlay/InfoPanel.tsx:30-95 | a sub-list is drawn, with its title, exactly when it is present and non-empty |
| InfoPanel.ShownContactLine | src/components/overlay/InfoPanel.tsx:109-113 | a contact line is drawn exactly when its field is present and non-empty, and it shows the caption followed by the field's value |
| InfoPanel.BlockFor | src/components/overlay/InfoPanel.tsx:13-117 | exactly one block is chosen by the section id; the experience and contact blocks also need their content field, and without it nothing is drawn; the experience block carries the section's jobs |
| InfoPanel.HomeParagraphs | src/components/overlay/InfoPanel.tsx:18-25 | the home block shows the headline, then the sub-headline, location and summary in that order, each only when present and non-empty |
| InfoPanel.SkillListsShownWhenNonEmpty | src/components/overlay/InfoPanel.tsx:30-50 | each of the three skills lists is shown exactly when it is present and non-empty |
| InfoPanel.SkillLists | src/components/overlay/InfoPanel.tsx:28-60 | the skills block is Top Skills, Technical Expertise and Emerging Technologies, in that order, each with its own items and drawn only when present and non-empty |
| InfoPanel.EducationLists | src/components/overlay/InfoPanel.tsx:80-100 | the education block is the `Education` list with the schools, then the `Certifications` list with the certificates, each drawn only when present and non-empty |
| InfoPanel.ContactLines | src/components/overlay/InfoPanel.tsx:107-115 | the contact block draws `Phone:`, `Email:`, `LinkedIn:`, `Portfolio:` and `Address:` with their values, in that order, each only when present and non-empty; so it has one line per such field |
| InfoPanel.Render | src/components/overlay/InfoPanel.tsx:121-163 | with no matching section the overlay renders nothing; otherwise it shows the section's name, tagline and block |
| InfoPanel.RenderShowsSection | src/components/overlay/InfoPanel.tsx:121-131 | no open id shows nothing, and every id shows its own section of the table |
| InfoPanel.CallsClose | src/components/overlay/InfoPanel.tsx:123-147 | definition of the close triggers; its properties are `EscapeOnly` and `ClickTargets` |
| InfoPanel.EscapeOnly | src/components/overlay/InfoPanel.tsx:123-129 | a key press calls close exactly for Escape, whether or not a section is open |
| InfoPanel.ClickTargets | src/components/overlay/InfoPanel.tsx:138-147 | while a section is shown, the backdrop and the close button call close and a click inside the panel does not |
| PortfolioWorld.PlanetDefs | src/components/three/PortfolioWorld.tsx:51-59 | there is one planet per section, in section order, with that section's id and name |
| PortfolioWorld.PlanetShape | src/components/three/PortfolioWorld.tsx:50-62 | planet `i` has height +(2+i) for even `i` and −(2+i) for odd `i`, body radius 2 + i/2, and colour `palette[i mod 5]` |
| PortfolioWorld.PlanetPlacement | src/components/three/PortfolioWorld.tsx:52-55 | planet `i` sits at x = cos(angle)·r and z = sin(angle)·r, with r = 22 + 14i and angle = (i/n)·2π + π/6 |
| PortfolioWorld.OrbitRadii | src/components/three/PortfolioWorld.tsx:48-52 | orbit radii start at 22 and grow by 14; for five sections they are 22, 36, 50, 64 and 78 |
| PortfolioWorld.PaletteCycles | src/components/three/PortfolioWorld.tsx:50-62 | colours repeat every five planets, and the first five are all different |
| PortfolioWorld.FirstAngle | src/components/three/PortfolioWorld.tsx:53 | the first planet is at angle π/6, and neighbouring planets are 2π/n apart |
| PortfolioWorld.OrbitRing | src/components/three/PortfolioWorld.tsx:53-94 | given cos² + sin² = 1, the ring radius `hypot(x, z)` of planet `i` equals its orbit radius |
| PortfolioWorld.PlanetProps | src/components/three/PortfolioWorld.tsx:101-108 | each planet is mounted with its own id, and its radius and colour override the defaults |
| PortfolioWorld.Dispatch | src/components/three/PortfolioWorld.tsx:108-118 | a click on planet `i` sets `openId` to that planet's id; other planet events keep it; an overlay event either keeps it or resets it to null |
| PortfolioWorld.ClickOpensSection | src/components/three/PortfolioWorld.tsx:44-108 | clicking planet `i` sets `openId` to section `i`'s id, and the overlay then shows section `i` |
| PortfolioWorld.HoverKeepsSelection | src/components/three/PortfolioWorld.tsx:108 | hover events on a planet leave `openId` unchanged |
| PortfolioWorld.EscapeCloses | src/components/three/PortfolioWorld.tsx:118 | Escape resets `openId` to null from any state; other keys leave it unchanged |
| PortfolioWorld.ClicksOnOverlay | src/components/three/PortfolioWorld.tsx:118 | with a section open, a backdrop click or the close button resets `openId` to null, and a click inside the panel keeps it |
| PortfolioWorld.CloseIdempotent | src/components/three/PortfolioWorld.tsx:44-118 | with nothing open, no overlay event changes `openId`: closing again leaves it null |
| PortfolioWorld.OpenIdFromLatestClick | src/components/three/PortfolioWorld.tsx:44-118 | whatever is open was set by the latest planet click, and it is that planet's id |
| PortfolioWorld.OpenSectionAlwaysShown | src/components/three/PortfolioWorld.tsx:118 | the overlay shows something exactly when an id is open |

## Left out

- AvatarMotion.Avatar.Frame: the bob driven by `performance.now()` (Astronaut.tsx:134), the camera follow (lines 137-142) and the `onPositionChange` callback (line 144) are not modelled. They read the clock, or move the camera, or call code outside the component. `Math.exp` is a host function; the speed bound assumes the damping factor lies in (0, 1], as `exp(-6·dt)` does for `dt >= 0`.
- AvatarMotion.AccelerationGate: `Vector3.lengthSq`, `Vector3.length` and `Vector3.normalize` are host functions. The gate is proved for a host whose `lengthSq` is the sum of squared components. The clamp lemmas assume `length` is the non-negative root of the squared length and `normalize` divides by it; the zero vector, which three.js divides by 1, never reaches the clamp.
- AvatarMotion.ForwardDir: the forward axis is `(-sin yaw, 0, -cos yaw)`, which is `(0, 0, -1)` turned by the group's rotation. This assumes the rotation's x angle stays 0 and its z angle is the bob, which leaves `(0, 0, -1)` fixed. The quaternion itself is not modelled.
- Floating point is not modelled: all quantities are real numbers, and `Math.cos`, `Math.sin` and `Math.PI` are supplied values (`Geometry.Trig`). The proofs assume only cos² + sin² = 1 about them.
- Keyboard.KeyMap is a constant, not an operation; its contents are stated by `KeyMapCodes` and `KeyMapFields`. The key map is proved to map exactly the eleven listed codes (`KeyMapCodes`), but the cardinality `|KeyMap| == 11` is not stated.
- Listener registration and removal, `window.matchMedia`, `navigator` and `window.innerWidth` are platform I/O. Their results are inputs (`MobileDetect.Platform`; key codes and UI events as event values).
- VirtualGamepad.ParentSeesEveryRecord: the model assumes `onControlChange` keeps its identity. The effect at VirtualGamepad.tsx:29-31 also depends on the callback, so a parent that passes a new callback on a render gets the same record reported again, and report `k` is then no longer the record after `k` calls.
- MobileDetect.LatestCheckWins: it speaks of the latest checked platform, not the current one. The re-check listener uses `(max-width: 768px)` (use-mobile.tsx:23), which includes 768, while the check uses `innerWidth < 768` (line 19). Resizing from 767 to 768 pixels fires no re-check, so the hook keeps reporting mobile.
- React scheduling is not modelled. The model assumes each gamepad handler call is committed and reported separately, with no batching of several calls into one render.
- Planet: `sectionId` is typed `string` in the component. The model types it as a section id, because the scene only ever passes the ids of the table.
- The name tag's position above the sphere, meshes, materials, lights, the sun, the star field, SVG icons and CSS classes are presentation only. So are `CyberpunkCard`, `CyberpunkPanel`, `CyberpunkButton`, `CyberpunkTitle`, `CyberpunkLoading` and `LinkedInModal`.
- `next.config.ts` is build tooling and is not part of this model.
- Camera orbit state, gamepad polling and merging of several input sources do not occur in the modelled files. The scene mounts neither the gamepad nor the LinkedIn modal.
