/**
 * The on-screen gamepad: six buttons, each bound to one field of the control record. Pressing
 * a button sets its field, releasing it clears the field, and every new record is reported to
 * the parent. Nothing is shown on a device that is not mobile.
 */
module VirtualGamepad {
  import opened Wrappers
  import opened ControlVector
  import MobileDetect

  /** The six `<button>` elements, in the order they are laid out. */
  datatype Button = ForwardButton | BackButton | LeftButton | RightButton | UpButton | DownButton

  const Buttons: seq<Button> := [ForwardButton, BackButton, LeftButton, RightButton, UpButton, DownButton]

  /** The pointer and touch events each button listens to. */
  datatype Gesture = TouchStart | TouchEnd | MouseDown | MouseUp | MouseLeave

  /** `handleButtonPress(f)` or `handleButtonRelease(f)`. */
  datatype Action = Press(field: Field) | Release(field: Field)

  /** The field a button's handlers name. */
  function Bound(b: Button): Field {
    match b
    case ForwardButton => Forward
    case BackButton => Back
    case LeftButton => Left
    case RightButton => Right
    case UpButton => Up
    case DownButton => Down
  }

  /** The button whose handlers name field `f`. */
  function ButtonFor(f: Field): (b: Button)
    ensures Bound(b) == f
  {
    match f
    case Forward => ForwardButton
    case Back => BackButton
    case Left => LeftButton
    case Right => RightButton
    case Up => UpButton
    case Down => DownButton
  }

  /** Each button is bound to its own field, and every field has a button. */
  lemma BindingIsOneToOne(b: Button, f: Field)
    ensures Bound(b) == f <==> b == ButtonFor(f)
  {
  }

  /** The six buttons, in layout order, drive the six fields in record order. */
  lemma ButtonsCoverFields()
    ensures |Buttons| == 6
    ensures forall i, j :: 0 <= i < j < |Buttons| ==> Bound(Buttons[i]) != Bound(Buttons[j])
    ensures forall f :: ButtonFor(f) in Buttons
  {
  }

  /** Whether a gesture starts a press: `touchstart` and `mousedown`. */
  predicate StartsPress(g: Gesture) {
    g == TouchStart || g == MouseDown
  }

  /** The handler a gesture on a button calls. */
  function Handler(b: Button, g: Gesture): (a: Action)
    ensures a.field == Bound(b)
    ensures a.Press? <==> StartsPress(g)
  {
    if StartsPress(g) then Press(Bound(b)) else Release(Bound(b))
  }

  /** Every release gesture of a button releases the very field its press gestures set. */
  lemma ReleaseMatchesPress(b: Button, press: Gesture, release: Gesture)
    requires StartsPress(press) && !StartsPress(release)
    ensures Handler(b, press) == Press(Bound(b))
    ensures Handler(b, release) == Release(Bound(b))
  {
  }

  /** `setActiveControls(prev => ({ ...prev, [f]: true }))` */
  function HandlePress(prev: Controls, f: Field): (r: Controls)
    ensures Get(r, f)
    ensures forall g :: g != f ==> Get(r, g) == Get(prev, g)
  {
    With(prev, f, true)
  }

  /** `setActiveControls(prev => ({ ...prev, [f]: false }))` */
  function HandleRelease(prev: Controls, f: Field): (r: Controls)
    ensures !Get(r, f)
    ensures forall g :: g != f ==> Get(r, g) == Get(prev, g)
  {
    With(prev, f, false)
  }

  function Apply(prev: Controls, a: Action): Controls {
    match a
    case Press(f) => HandlePress(prev, f)
    case Release(f) => HandleRelease(prev, f)
  }

  /** Pressing a held control, or releasing a free one, leaves the record as it was. */
  lemma {:induction false} PressIdempotent(c: Controls, f: Field)
    ensures Get(c, f) ==> HandlePress(c, f) == c
    ensures HandlePress(HandlePress(c, f), f) == HandlePress(c, f)
  {
    if Get(c, f) {
      WithIdempotent(c, f, true);
    }
    WithIdempotent(HandlePress(c, f), f, true);
  }

  lemma {:induction false} ReleaseIdempotent(c: Controls, f: Field)
    ensures !Get(c, f) ==> HandleRelease(c, f) == c
    ensures HandleRelease(HandleRelease(c, f), f) == HandleRelease(c, f)
  {
    if !Get(c, f) {
      WithIdempotent(c, f, false);
    }
    WithIdempotent(HandleRelease(c, f), f, false);
  }

  /** Releasing a control that was free before the press undoes the press. */
  lemma {:induction false} ReleaseUndoesPress(c: Controls, f: Field)
    requires !Get(c, f)
    ensures HandleRelease(HandlePress(c, f), f) == c
  {
    Extensional(HandleRelease(HandlePress(c, f), f), c);
  }

  /**
   * The component's state: the current record, and every record the change effect has passed
   * to `onControlChange`, oldest first.
   */
  datatype Pad = Pad(active: Controls, reported: seq<Controls>)

  /** The parent has been told the current record. */
  predicate InSync(p: Pad) {
    |p.reported| > 0 && p.reported[|p.reported| - 1] == p.active
  }

  /**
   * After the first commit: the initial record `useState({forward: false, ...})`, with every
   * control false, already reported once by the effect.
   */
  function Mount(): (p: Pad)
    ensures forall f :: !Get(p.active, f)
    ensures InSync(p)
  {
    Pad(Released, [Released])
  }

  /**
   * One handler call. The updater always builds a new object, so the effect runs again and
   * reports the new record even when no field changed.
   */
  function Step(p: Pad, a: Action): (r: Pad)
    ensures r.active == Apply(p.active, a)
    ensures r.reported == p.reported + [r.active]
  {
    var next := Apply(p.active, a);
    Pad(next, p.reported + [next])
  }

  /** Every handler call keeps the parent in sync. */
  lemma StepKeepsSync(p: Pad, a: Action)
    ensures InSync(Step(p, a))
  {
  }

  /** The record after the handler calls `acts`, from the initial record. */
  function Active(acts: seq<Action>): Controls {
    if acts == [] then Released else Apply(Active(acts[..|acts| - 1]), acts[|acts| - 1])
  }

  function Session(acts: seq<Action>): Pad {
    if acts == [] then Mount() else Step(Session(acts[..|acts| - 1]), acts[|acts| - 1])
  }

  /**
   * The parent receives the whole record after mount and after every handler call, in order:
   * report `k` is the record after the first `k` calls.
   */
  lemma {:induction false} ParentSeesEveryRecord(acts: seq<Action>)
    ensures Session(acts).active == Active(acts)
    ensures |Session(acts).reported| == |acts| + 1
    ensures forall k :: 0 <= k <= |acts| ==> Session(acts).reported[k] == Active(acts[..k])
  {
    if acts != [] {
      var init := acts[..|acts| - 1];
      ParentSeesEveryRecord(init);
      forall k | 0 <= k <= |acts|
        ensures Session(acts).reported[k] == Active(acts[..k])
      {
        if k < |acts| {
          assert acts[..k] == init[..k];
        } else {
          assert acts[..k] == acts;
        }
      }
    }
  }

  /** Whether the latest action on field `f` in `acts` was a press; None if no action names `f`. */
  function LatestOn(acts: seq<Action>, f: Field): Option<bool> {
    if acts == [] then None
    else if acts[|acts| - 1].field == f then Some(acts[|acts| - 1].Press?)
    else LatestOn(acts[..|acts| - 1], f)
  }

  /**
   * A field is set exactly when the latest action on it was a press; actions on the other
   * fields never disturb it.
   */
  lemma {:induction false} LatestActionWins(acts: seq<Action>, f: Field)
    ensures Get(Active(acts), f) == LatestOn(acts, f).GetOr(false)
  {
    if acts != [] {
      LatestActionWins(acts[..|acts| - 1], f);
    }
  }

  /** What a button shows: whether it is highlighted as active. */
  datatype ButtonView = ButtonView(button: Button, highlighted: bool)

  /** The rendered pad: nothing off mobile, otherwise the six buttons, lit by their fields. */
  function Render(isMobile: bool, active: Controls): (r: Option<seq<ButtonView>>)
    ensures r.None? <==> !isMobile
    ensures r.Some? ==> |r.value| == |Buttons|
    ensures r.Some? ==> forall i :: 0 <= i < |r.value| ==>
      r.value[i].button == Buttons[i] && (r.value[i].highlighted <==> Get(active, Bound(Buttons[i])))
  {
    if !isMobile then None
    else Some(seq(|Buttons|, i requires 0 <= i < |Buttons| => ButtonView(Buttons[i], Get(active, Bound(Buttons[i])))))
  }

  /** Until the mobile check has run, the pad renders nothing. */
  lemma HiddenBeforeCheck(active: Controls)
    ensures Render(MobileDetect.HookValue(MobileDetect.InitialHookState()), active).None?
  {
  }
}
