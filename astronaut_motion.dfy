/**
 * The avatar's per-frame step: turning, the acceleration the controls add to the velocity, the
 * speed clamp and damping, and the move of the position. The step reads the control record of
 * the keyboard module and mutates the group's rotation and position and the velocity in place.
 */
module AvatarMotion {
  import opened ControlVector
  import opened Geometry

  /** Movement constants of the frame step. */
  const Accel: real := 25.0
  const Damping: real := 6.0
  const TurnSpeed: real := 2.2
  const MaxSpeed: real := 15.0

  /** The group is created at `position={[0, 2, 20]}`. */
  const StartPosition := Vec3(0.0, 2.0, 20.0)

  /**
   * The numeric services of the host the step calls into: trigonometry, `Math.exp`, and
   * three.js's `Vector3.lengthSq`, `Vector3.length` and `Vector3.normalize`.
   */
  datatype Host = Host(trig: Trig, exp: real -> real, lengthSq: Vec3 -> real, length: Vec3 -> real,
                       normalize: Vec3 -> Vec3)

  /** The host's `lengthSq` is the sum of the squared components. */
  ghost predicate SumsSquares(host: Host) {
    forall v :: host.lengthSq(v) == LengthSq(v)
  }

  /** The host's `length` is the non-negative square root of the squared length. */
  ghost predicate MeasuresLength(host: Host) {
    forall v :: host.length(v) >= 0.0 && host.length(v) * host.length(v) == LengthSq(v)
  }

  /** The host's `normalize` divides a vector of positive length by that length. */
  ghost predicate NormalizesByLength(host: Host) {
    forall v :: host.length(v) > 0.0 ==> host.normalize(v) == Scale(1.0 / host.length(v), v)
  }

  /** +1 when only the first of two opposite controls is held, -1 when only the second, else 0. */
  function Sign(p: bool, q: bool): real {
    if p == q then 0.0 else if p then 1.0 else -1.0
  }

  /** The change of heading in one frame of length `dt`. */
  function TurnDelta(c: Controls, dt: real): (r: real)
    ensures c.left == c.right ==> r == 0.0
    ensures c.left && !c.right ==> r == TurnSpeed * dt
    ensures c.right && !c.left ==> r == -TurnSpeed * dt
  {
    TurnSpeed * dt * Sign(c.left, c.right)
  }

  /**
   * The local forward axis, `(0, 0, -1)` rotated by the group's Euler angles `(0, yaw, bob)` in
   * XYZ order; the bob turns about z, which leaves `(0, 0, -1)` fixed.
   */
  function ForwardDir(t: Trig, yaw: real): Vec3 {
    Vec3(-t.sin(yaw), 0.0, -t.cos(yaw))
  }

  const UpDir := Vec3(0.0, 1.0, 0.0)

  /** `dv`: the sum of the forward axis, the reversed forward axis, up and down, for each held control. */
  function Thrust(c: Controls, forward: Vec3): Vec3 {
    var v1 := if c.forward then Add(Zero, forward) else Zero;
    var v2 := if c.back then Add(v1, Scale(-1.0, forward)) else v1;
    var v3 := if c.up then Add(v2, UpDir) else v2;
    if c.down then Add(v3, Scale(-1.0, UpDir)) else v3
  }

  /** The forward axis is a horizontal unit vector. */
  lemma ForwardDirIsUnit(t: Trig, yaw: real)
    requires Pythagorean(t)
    ensures ForwardDir(t, yaw).y == 0.0
    ensures ForwardDir(t, yaw).x * ForwardDir(t, yaw).x + ForwardDir(t, yaw).z * ForwardDir(t, yaw).z == 1.0
  {
  }

  /** Component by component, the thrust along a horizontal forward axis. */
  lemma ThrustShape(c: Controls, f: Vec3)
    requires f.y == 0.0
    ensures c.forward == c.back ==> Thrust(c, f).x == 0.0 && Thrust(c, f).z == 0.0
    ensures c.forward && !c.back ==> Thrust(c, f).x == f.x && Thrust(c, f).z == f.z
    ensures !c.forward && c.back ==> Thrust(c, f).x == -f.x && Thrust(c, f).z == -f.z
    ensures Thrust(c, f).y == Sign(c.up, c.down)
  {
  }

  lemma NegSquare(x: real)
    ensures (-x) * (-x) == x * x
  {
  }

  lemma HorizontalThrust(c: Controls, f: Vec3)
    requires f.y == 0.0 && f.x * f.x + f.z * f.z == 1.0
    ensures var v := Thrust(c, f); v.x * v.x + v.z * v.z == if c.forward != c.back then 1.0 else 0.0
  {
    ThrustShape(c, f);
    if c.forward != c.back {
      SquaresUpToSign(Thrust(c, f).x, Thrust(c, f).z, f.x, f.z);
    }
  }

  /** A pair of components has the same sum of squares as the pair it equals up to one sign. */
  lemma SquaresUpToSign(a: real, b: real, p: real, q: real)
    requires (a == p && b == q) || (a == -p && b == -q)
    ensures a * a + b * b == p * p + q * q
  {
    if a == -p {
      NegSquare(p);
      NegSquare(q);
    }
  }

  lemma VerticalThrust(c: Controls, f: Vec3)
    requires f.y == 0.0
    ensures var v := Thrust(c, f); v.y * v.y == if c.up != c.down then 1.0 else 0.0
  {
    ThrustShape(c, f);
  }

  /**
   * Along a horizontal unit forward axis, the thrust's squared length counts the uncancelled
   * pairs: forward against back, and up against down.
   */
  lemma {:induction false} ThrustLength(c: Controls, f: Vec3)
    requires f.y == 0.0 && f.x * f.x + f.z * f.z == 1.0
    ensures LengthSq(Thrust(c, f)) == (if c.forward != c.back then 1.0 else 0.0) + (if c.up != c.down then 1.0 else 0.0)
  {
    HorizontalThrust(c, f);
    VerticalThrust(c, f);
    LengthSqSplit(Thrust(c, f));
  }

  /**
   * An acceleration is applied exactly when forward differs from back or up differs from down:
   * opposite controls cancel, and left and right never contribute.
   */
  lemma {:induction false} AccelerationGate(c: Controls, host: Host, yaw: real)
    requires Pythagorean(host.trig) && SumsSquares(host)
    ensures host.lengthSq(Thrust(c, ForwardDir(host.trig, yaw))) > 0.0 <==> (c.forward != c.back || c.up != c.down)
  {
    ForwardDirIsUnit(host.trig, yaw);
    ThrustLength(c, ForwardDir(host.trig, yaw));
  }

  /** Turning controls do not change the thrust. */
  lemma LateralControlsNoThrust(c: Controls, f: Vec3, left: bool, right: bool)
    ensures Thrust(c.(left := left, right := right), f) == Thrust(c, f)
  {
  }

  /** Lines 110-114: start from zero and add one axis for each held directional control. */
  method AccumulateThrust(c: Controls, forwardDir: Vec3) returns (dv: Vec3)
    ensures dv == Thrust(c, forwardDir)
  {
    dv := Zero;
    if c.forward {
      dv := Add(dv, forwardDir);
    }
    if c.back {
      dv := Add(dv, Scale(-1.0, forwardDir));
    }
    if c.up {
      dv := Add(dv, UpDir);
    }
    if c.down {
      dv := Add(dv, Scale(-1.0, UpDir));
    }
  }

  /**
   * The velocity after the acceleration stage of a frame: a thrust `dv` of positive squared
   * length is normalised, scaled by `Accel * dt` and added; otherwise the velocity stays.
   */
  function Accelerate(v: Vec3, dv: Vec3, dt: real, host: Host): Vec3 {
    if host.lengthSq(dv) > 0.0 then Add(v, Scale(Accel * dt, host.normalize(dv))) else v
  }

  /** With forward and back, and up and down, cancelling, a frame leaves the velocity as it was. */
  lemma {:induction false} CancelledControlsCoast(v: Vec3, c: Controls, dt: real, host: Host, yaw: real)
    requires Pythagorean(host.trig) && SumsSquares(host)
    requires c.forward == c.back && c.up == c.down
    ensures Accelerate(v, Thrust(c, ForwardDir(host.trig, yaw)), dt, host) == v
  {
    AccelerationGate(c, host, yaw);
  }

  /** An uncancelled pair of controls adds `Accel * dt` times the normalised thrust. */
  lemma {:induction false} UncancelledControlsAccelerate(v: Vec3, c: Controls, dt: real, host: Host, yaw: real)
    requires Pythagorean(host.trig) && SumsSquares(host)
    requires c.forward != c.back || c.up != c.down
    ensures var dv := Thrust(c, ForwardDir(host.trig, yaw));
            Accelerate(v, dv, dt, host) == Add(v, Scale(Accel * dt, host.normalize(dv)))
  {
    AccelerationGate(c, host, yaw);
  }

  /** Lines 121-124: a speed above `MaxSpeed` is brought down to `MaxSpeed`, keeping the direction. */
  function Clamp(v: Vec3, host: Host): Vec3 {
    if host.length(v) > MaxSpeed then Scale(MaxSpeed, host.normalize(v)) else v
  }

  /** Lines 127-128: the factor `exp(-Damping * dt)` the velocity is multiplied by each frame. */
  function DampFactor(dt: real, host: Host): real {
    host.exp(-Damping * dt)
  }

  /** The velocity after the clamp and damping stages of a frame. */
  function Settle(v: Vec3, dt: real, host: Host): Vec3 {
    Scale(DampFactor(dt, host), Clamp(v, host))
  }

  lemma InverseSquare(l: real)
    requires l > 0.0
    ensures (1.0 / l) * (1.0 / l) * (l * l) == 1.0
  {
    assert (1.0 / l) * l == 1.0;
    assert (1.0 / l) * (1.0 / l) * (l * l) == ((1.0 / l) * l) * ((1.0 / l) * l);
  }

  /** A velocity no faster than `MaxSpeed` passes the clamp unchanged; a faster one leaves at exactly `MaxSpeed`. */
  lemma {:induction false} ClampCapsSpeed(v: Vec3, host: Host)
    requires MeasuresLength(host) && NormalizesByLength(host)
    ensures host.length(v) <= MaxSpeed ==> Clamp(v, host) == v
    ensures host.length(v) > MaxSpeed ==> host.length(Clamp(v, host)) == MaxSpeed
    ensures host.length(Clamp(v, host)) <= MaxSpeed
  {
    var l := host.length(v);
    if l > MaxSpeed {
      var u := host.normalize(v);
      var w := Scale(MaxSpeed, u);
      assert u == Scale(1.0 / l, v);
      UnitAfterDivide(v, l);
      ScaleLengthSq(MaxSpeed, u);
      assert LengthSq(w) == MaxSpeed * MaxSpeed;
      RootUnique(host.length(w), MaxSpeed);
    }
  }

  /** A vector divided by its length has squared length 1. */
  lemma UnitAfterDivide(v: Vec3, l: real)
    requires l > 0.0 && l * l == LengthSq(v)
    ensures LengthSq(Scale(1.0 / l, v)) == 1.0
  {
    var k := 1.0 / l;
    ScaleLengthSq(k, v);
    InverseSquare(l);
    assert LengthSq(Scale(k, v)) == k * k * (l * l);
  }

  /** Scaling by a factor in (0, 1] never lengthens a vector. */
  lemma ShrinkByFactor(f: real, w: Vec3, bound: real)
    requires 0.0 < f <= 1.0 && LengthSq(w) <= bound
    ensures LengthSq(Scale(f, w)) <= bound
  {
    var x := LengthSq(w);
    var g := f * f;
    ScaleLengthSq(f, w);
    MulLeqOne(f, f);
    MulLeqOne(g, x);
    assert LengthSq(Scale(f, w)) == g * x <= x;
  }

  lemma MulLeqOne(a: real, b: real)
    requires 0.0 <= a <= 1.0 && b >= 0.0
    ensures 0.0 <= a * b <= b
  {
    assert (1.0 - a) * b >= 0.0;
  }

  /**
   * With a damping factor in (0, 1], as `exp(-6 dt)` is for `dt >= 0`, the velocity a frame
   * leaves behind has squared length at most `MaxSpeed * MaxSpeed`, whatever it was before.
   */
  lemma {:induction false} SettleBoundsSpeed(v: Vec3, dt: real, host: Host)
    requires MeasuresLength(host) && NormalizesByLength(host)
    requires 0.0 < DampFactor(dt, host) <= 1.0
    ensures LengthSq(Settle(v, dt, host)) <= MaxSpeed * MaxSpeed
  {
    var w := Clamp(v, host);
    ClampCapsSpeed(v, host);
    var h := host.length(w);
    assert h * h == LengthSq(w);
    if h < MaxSpeed {
      SquareMono(h, MaxSpeed);
    }
    ShrinkByFactor(DampFactor(dt, host), w, MaxSpeed * MaxSpeed);
  }

  /** The controllable body: the group's handle, its heading and position, and the velocity it carries. */
  class Avatar {
    var mounted: bool   // `group.current` is set
    var yaw: real       // `group.rotation.y`
    var position: Vec3  // `group.position`
    var velocity: Vec3  // `velocity.current`

    /**
     * Before the first commit the group handle is null; heading and velocity start at zero, and
     * the position holds the value the group will be created with.
     */
    constructor ()
      ensures !mounted && yaw == 0.0 && velocity == Zero && position == StartPosition
    {
      mounted := false;
      yaw := 0.0;
      position := StartPosition;
      velocity := Zero;
    }

    /** The renderer creates the group at its start position and attaches it to the handle. */
    method Mount()
      modifies this
      ensures mounted && position == StartPosition
      ensures yaw == old(yaw) && velocity == old(velocity)
    {
      mounted := true;
      position := StartPosition;
    }

    /** Lines 102-103: turn left, then turn right, for each held control. */
    method Turn(c: Controls, dt: real)
      modifies this
      ensures yaw == old(yaw) + TurnDelta(c, dt)
      ensures mounted == old(mounted) && position == old(position) && velocity == old(velocity)
    {
      if c.left {
        yaw := yaw + TurnSpeed * dt;
      }
      if c.right {
        yaw := yaw - TurnSpeed * dt;
      }
    }

    /** Lines 115-118: a thrust of positive squared length, normalised and scaled by `Accel * dt`, is added to the velocity. */
    method ApplyThrust(dv: Vec3, dt: real, host: Host)
      modifies this
      ensures velocity == Accelerate(old(velocity), dv, dt, host)
      ensures mounted == old(mounted) && yaw == old(yaw) && position == old(position)
    {
      if host.lengthSq(dv) > 0.0 {
        velocity := Add(velocity, Scale(Accel * dt, host.normalize(dv)));
      }
    }

    /** Lines 107-118: the thrust of the held controls along `forwardDir` accelerates the body. */
    method Push(c: Controls, forwardDir: Vec3, dt: real, host: Host)
      modifies this
      ensures velocity == Accelerate(old(velocity), Thrust(c, forwardDir), dt, host)
      ensures mounted == old(mounted) && yaw == old(yaw) && position == old(position)
    {
      var dv := AccumulateThrust(c, forwardDir);
      ApplyThrust(dv, dt, host);
    }

    /** Lines 121-124: a velocity faster than `MaxSpeed` is rescaled to `MaxSpeed`. */
    method ClampSpeed(host: Host)
      modifies this
      ensures velocity == Clamp(old(velocity), host)
      ensures mounted == old(mounted) && yaw == old(yaw) && position == old(position)
    {
      var speed := host.length(velocity);
      if speed > MaxSpeed {
        velocity := Scale(MaxSpeed, host.normalize(velocity));
      }
    }

    /** Lines 127-128: the velocity decays by `exp(-Damping * dt)`. */
    method Damp(dt: real, host: Host)
      modifies this
      ensures velocity == Scale(DampFactor(dt, host), old(velocity))
      ensures mounted == old(mounted) && yaw == old(yaw) && position == old(position)
    {
      var dampFactor := host.exp(-Damping * dt);
      velocity := Scale(dampFactor, velocity);
    }

    /** Line 131: the position advances by `velocity * dt`. */
    method Integrate(dt: real)
      modifies this
      ensures position == Add(old(position), Scale(dt, velocity))
      ensures mounted == old(mounted) && yaw == old(yaw) && velocity == old(velocity)
    {
      position := Add(position, Scale(dt, velocity));
    }

    /**
     * One frame of length `dt` under controls `c`: nothing happens without a handle; otherwise
     * the heading turns by `TurnDelta`, the thrust accelerates the velocity, the velocity is
     * clamped and damped (`Settle`), and the position advances by the new velocity times `dt`.
     */
    method Frame(c: Controls, dt: real, host: Host)
      modifies this
      ensures mounted == old(mounted)
      ensures !old(mounted) ==> yaw == old(yaw) && position == old(position) && velocity == old(velocity)
      ensures old(mounted) ==> yaw == old(yaw) + TurnDelta(c, dt)
      ensures old(mounted) ==> velocity == Settle(Accelerate(old(velocity), Thrust(c, ForwardDir(host.trig, yaw)), dt, host), dt, host)
      ensures old(mounted) ==> position == Add(old(position), Scale(dt, velocity))
    {
      if !mounted {
        return;
      }
      Turn(c, dt);
      var forwardDir := ForwardDir(host.trig, yaw);
      Push(c, forwardDir, dt, host);
      ClampSpeed(host);
      Damp(dt, host);
      Integrate(dt);
    }
  }
}
