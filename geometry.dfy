/**
 * Three-component real vectors and the host's trigonometry. `Math.cos`, `Math.sin` and
 * `Math.PI` are not computable here, so they are carried as values of a `Trig` record that
 * callers supply; the identity cos² + sin² = 1 is a predicate on that record.
 */
module Geometry {

  datatype Vec3 = Vec3(x: real, y: real, z: real)

  const Zero := Vec3(0.0, 0.0, 0.0)

  function Add(a: Vec3, b: Vec3): Vec3 {
    Vec3(a.x + b.x, a.y + b.y, a.z + b.z)
  }

  function Scale(k: real, a: Vec3): Vec3 {
    Vec3(k * a.x, k * a.y, k * a.z)
  }

  /** `Vector3.lengthSq()` */
  function LengthSq(a: Vec3): real {
    a.x * a.x + a.y * a.y + a.z * a.z
  }

  lemma LengthSqSplit(v: Vec3)
    ensures LengthSq(v) == (v.x * v.x + v.z * v.z) + v.y * v.y
  {
  }

  /** `Math.cos`, `Math.sin` and `Math.PI` of the host. */
  datatype Trig = Trig(cos: real -> real, sin: real -> real, pi: real)

  /** The only fact about the host's trigonometry the proofs use. */
  ghost predicate Pythagorean(t: Trig) {
    forall a :: t.cos(a) * t.cos(a) + t.sin(a) * t.sin(a) == 1.0
  }

  /** `h` is `Math.hypot(x, z)`: the non-negative length of the vector (x, z). */
  ghost predicate IsHypot(h: real, x: real, z: real) {
    h >= 0.0 && h * h == x * x + z * z
  }

  /** `Math.hypot` is determined by its defining property. */
  lemma HypotUnique(h1: real, h2: real, x: real, z: real)
    requires IsHypot(h1, x, z) && IsHypot(h2, x, z)
    ensures h1 == h2
  {
    RootUnique(h1, h2);
  }

  /** Two non-negative numbers with the same square are equal. */
  lemma RootUnique(h1: real, h2: real)
    requires h1 >= 0.0 && h2 >= 0.0 && h1 * h1 == h2 * h2
    ensures h1 == h2
  {
    if h1 < h2 {
      SquareMono(h1, h2);
    } else if h2 < h1 {
      SquareMono(h2, h1);
    }
  }

  /** Scaling a vector by `k` scales its squared length by `k * k`. */
  lemma ScaleLengthSq(k: real, a: Vec3)
    ensures LengthSq(Scale(k, a)) == k * k * LengthSq(a)
  {
    assert (k * a.x) * (k * a.x) == k * k * (a.x * a.x);
    assert (k * a.y) * (k * a.y) == k * k * (a.y * a.y);
    assert (k * a.z) * (k * a.z) == k * k * (a.z * a.z);
  }

  lemma SquareMono(a: real, b: real)
    requires 0.0 <= a < b
    ensures a * a < b * b
  {
    var d := b - a;
    assert b * b == a * a + 2.0 * a * d + d * d;
    assert a * d >= 0.0;
    assert d * d > 0.0;
  }
}
