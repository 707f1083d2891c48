/**
 * Keyboard control of the avatar: the fixed key-code table and the key-down / key-up
 * handlers that rewrite one field of the control record.
 */
module Keyboard {
  import opened Wrappers
  import opened ControlVector

  /** The fixed table from `KeyboardEvent.code` to the control field the key drives. */
  const KeyMap: map<string, Field> := map[
    "KeyW" := Forward, "ArrowUp" := Forward,
    "KeyS" := Back, "ArrowDown" := Back,
    "KeyA" := Left, "ArrowLeft" := Left,
    "KeyD" := Right, "ArrowRight" := Right,
    "Space" := Up,
    "ShiftLeft" := Down, "ShiftRight" := Down
  ]

  /** The key codes that drive field `f`. */
  function CodesFor(f: Field): set<string> {
    set code | code in KeyMap && KeyMap[code] == f
  }

  /** The codes the table maps. */
  const MappedCodes: set<string> := {"KeyW", "ArrowUp", "KeyS", "ArrowDown", "KeyA", "ArrowLeft",
                                     "KeyD", "ArrowRight", "Space", "ShiftLeft", "ShiftRight"}

  /** The table maps exactly the listed codes; every other code is unmapped. */
  lemma KeyMapCodes()
    ensures KeyMap.Keys == MappedCodes
  {
  }

  /** Each field is driven by exactly the codes the table lists for it. */
  lemma KeyMapFields()
    ensures CodesFor(Forward) == {"KeyW", "ArrowUp"}
    ensures CodesFor(Back) == {"KeyS", "ArrowDown"}
    ensures CodesFor(Left) == {"KeyA", "ArrowLeft"}
    ensures CodesFor(Right) == {"KeyD", "ArrowRight"}
    ensures CodesFor(Up) == {"Space"}
    ensures CodesFor(Down) == {"ShiftLeft", "ShiftRight"}
  {
  }

  /** The initial control record of the avatar holds nothing. */
  function InitialControls(): (r: Controls)
    ensures forall f :: !Get(r, f)
  {
    Released
  }

  /** `onKeyDown`: a mapped code sets its field; any other code changes nothing. */
  function OnKeyDown(c: Controls, code: string): (r: Controls)
    ensures code in KeyMap ==> Get(r, KeyMap[code]) && forall g :: g != KeyMap[code] ==> Get(r, g) == Get(c, g)
    ensures code !in KeyMap ==> r == c
  {
    if code in KeyMap then With(c, KeyMap[code], true) else c
  }

  /** `onKeyUp`: a mapped code clears its field; any other code changes nothing. */
  function OnKeyUp(c: Controls, code: string): (r: Controls)
    ensures code in KeyMap ==> !Get(r, KeyMap[code]) && forall g :: g != KeyMap[code] ==> Get(r, g) == Get(c, g)
    ensures code !in KeyMap ==> r == c
  {
    if code in KeyMap then With(c, KeyMap[code], false) else c
  }

  datatype KeyEvent = KeyDown(code: string) | KeyUp(code: string)

  function Handle(c: Controls, e: KeyEvent): Controls {
    match e
    case KeyDown(code) => OnKeyDown(c, code)
    case KeyUp(code) => OnKeyUp(c, code)
  }

  /** The control record after the listeners have seen `evs`, in order. */
  function Run(c: Controls, evs: seq<KeyEvent>): Controls {
    if evs == [] then c else Handle(Run(c, evs[..|evs| - 1]), evs[|evs| - 1])
  }

  /** Whether the last event whose code drives `f` was a key-down; None if no event drives `f`. */
  function LatestFor(evs: seq<KeyEvent>, f: Field): Option<bool> {
    if evs == [] then None
    else if evs[|evs| - 1].code in KeyMap && KeyMap[evs[|evs| - 1].code] == f then Some(evs[|evs| - 1].KeyDown?)
    else LatestFor(evs[..|evs| - 1], f)
  }

  /** Whether the last event on this very key was a key-down: the key is physically held. */
  predicate Held(evs: seq<KeyEvent>, code: string) {
    if evs == [] then false
    else if evs[|evs| - 1].code == code then evs[|evs| - 1].KeyDown?
    else Held(evs[..|evs| - 1], code)
  }

  /**
   * One flag per field, last writer wins: a field is set exactly when the latest event on
   * any of its codes was a key-down, whichever of its codes that was.
   */
  lemma {:induction false} LastWriterWins(c: Controls, evs: seq<KeyEvent>, f: Field)
    ensures Get(Run(c, evs), f) == LatestFor(evs, f).GetOr(Get(c, f))
  {
    if evs != [] {
      LastWriterWins(c, evs[..|evs| - 1], f);
    }
  }

  /** A field that is set is backed by a key of its own that is still held. */
  lemma {:induction false} SetFieldHasHeldKey(evs: seq<KeyEvent>, f: Field)
    requires Get(Run(InitialControls(), evs), f)
    ensures exists code :: code in CodesFor(f) && Held(evs, code)
  {
    LastWriterWins(InitialControls(), evs, f);
    LatestHeld(evs, f);
  }

  lemma {:induction false} LatestHeld(evs: seq<KeyEvent>, f: Field)
    requires LatestFor(evs, f) == Some(true)
    ensures exists code :: code in CodesFor(f) && Held(evs, code)
  {
    var last := evs[|evs| - 1];
    if last.code in KeyMap && KeyMap[last.code] == f {
      assert last.code in CodesFor(f) && Held(evs, last.code);
    } else {
      LatestHeld(evs[..|evs| - 1], f);
      var code :| code in CodesFor(f) && Held(evs[..|evs| - 1], code);
      assert code != last.code;
      assert Held(evs, code);
    }
  }

  /**
   * The converse fails: pressing `KeyW` and `ArrowUp` and releasing only `ArrowUp` leaves
   * `KeyW` held but `forward` cleared.
   */
  lemma SharedReleaseClearsField()
    ensures var evs := [KeyDown("KeyW"), KeyDown("ArrowUp"), KeyUp("ArrowUp")];
            Held(evs, "KeyW") && !Run(InitialControls(), evs).forward
  {
  }
}
