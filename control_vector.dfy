/**
 * The six-boolean control record shared by the keyboard handler of the avatar and
 * by the on-screen gamepad: `{forward, back, left, right, up, down}`.
 */
module ControlVector {

  /** The name of one field of the record (`keyof Controls`). */
  datatype Field = Forward | Back | Left | Right | Up | Down

  datatype Controls = Controls(forward: bool, back: bool, left: bool, right: bool, up: bool, down: bool)

  /** The initial record: nothing held. */
  const Released := Controls(false, false, false, false, false, false)

  /** `c[f]` */
  function Get(c: Controls, f: Field): bool {
    match f
    case Forward => c.forward
    case Back => c.back
    case Left => c.left
    case Right => c.right
    case Up => c.up
    case Down => c.down
  }

  /** `{ ...c, [f]: v }`: field `f` becomes `v`, the other five are copied. */
  function With(c: Controls, f: Field, v: bool): (r: Controls)
    ensures Get(r, f) == v
    ensures forall g :: g != f ==> Get(r, g) == Get(c, g)
  {
    match f
    case Forward => c.(forward := v)
    case Back => c.(back := v)
    case Left => c.(left := v)
    case Right => c.(right := v)
    case Up => c.(up := v)
    case Down => c.(down := v)
  }

  /** Two records that agree on every field are the same record. */
  lemma {:induction false} Extensional(a: Controls, b: Controls)
    requires forall f :: Get(a, f) == Get(b, f)
    ensures a == b
  {
    assert Get(a, Forward) == Get(b, Forward) && Get(a, Back) == Get(b, Back);
    assert Get(a, Left) == Get(b, Left) && Get(a, Right) == Get(b, Right);
    assert Get(a, Up) == Get(b, Up) && Get(a, Down) == Get(b, Down);
  }

  /** Writing a field with the value it already holds gives back the same record. */
  lemma {:induction false} WithIdempotent(c: Controls, f: Field, v: bool)
    requires Get(c, f) == v
    ensures With(c, f, v) == c
  {
    Extensional(With(c, f, v), c);
  }
}
