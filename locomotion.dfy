/**
 * The per-frame locomotion step: translation along the model's forward
 * vector, turning about the vertical axis, and the clamp of the ground-plane
 * coordinates into the world square. Arithmetic is on exact reals.
 */
module Locomotion {
  datatype Vec3 = Vec3(x: real, y: real, z: real)

  const MoveSpeed: real := 0.1
  const RotationSpeed: real := 0.05
  const WorldBoundary: real := 50.0

  function Add(p: Vec3, q: Vec3): Vec3 {
    Vec3(p.x + q.x, p.y + q.y, p.z + q.z)
  }

  function Scale(v: Vec3, k: real): Vec3 {
    Vec3(v.x * k, v.y * k, v.z * k)
  }

  /** `Math.min` and `Math.max` on two numbers. */
  function Min(a: real, b: real): real { if a <= b then a else b }
  function Max(a: real, b: real): real { if a >= b then a else b }

  /** `Math.max(-worldBoundary, Math.min(worldBoundary, v))`. */
  function Clamp(v: real): (r: real)
    ensures -WorldBoundary <= r <= WorldBoundary
    ensures -WorldBoundary <= v <= WorldBoundary ==> r == v
    ensures v > WorldBoundary ==> r == WorldBoundary
    ensures v < -WorldBoundary ==> r == -WorldBoundary
  {
    Max(-WorldBoundary, Min(WorldBoundary, v))
  }

  ghost predicate InWorld(p: Vec3) {
    -WorldBoundary <= p.x <= WorldBoundary && -WorldBoundary <= p.z <= WorldBoundary
  }

  /** The world-boundary step: x and z clamped, y untouched. */
  function ClampToWorld(p: Vec3): (r: Vec3)
    ensures InWorld(r)
    ensures r.y == p.y
    ensures InWorld(p) ==> r == p
    ensures r.x == Clamp(p.x) && r.z == Clamp(p.z)
  {
    Vec3(Clamp(p.x), p.y, Clamp(p.z))
  }

  lemma ClampIdempotent(p: Vec3)
    ensures ClampToWorld(ClampToWorld(p)) == ClampToWorld(p)
  {
  }

  /** Translation for one frame: forward times `MoveSpeed` if `w`, then forward times `-MoveSpeed` if `s`. */
  function Translate(p: Vec3, forward: Vec3, w: bool, s: bool): (r: Vec3)
    ensures w && s ==> r == p
    ensures !w && !s ==> r == p
    ensures w && !s ==> r == Add(p, Scale(forward, MoveSpeed))
    ensures s && !w ==> r == Add(p, Scale(forward, -MoveSpeed))
  {
    var p1 := if w then Add(p, Scale(forward, MoveSpeed)) else p;
    if s then Add(p1, Scale(forward, -MoveSpeed)) else p1
  }

  /** `rotation.y` after one frame: plus `RotationSpeed` if `a`, then minus it if `d`. */
  function Turn(yaw: real, a: bool, d: bool): (r: real)
    ensures a == d ==> r == yaw
    ensures a && !d ==> r == yaw + RotationSpeed
    ensures d && !a ==> r == yaw - RotationSpeed
  {
    var y1 := if a then yaw + RotationSpeed else yaw;
    if d then y1 - RotationSpeed else y1
  }

  /** The position `n` frames of holding only `w` would reach without the clamp. */
  function Displaced(p: Vec3, forward: Vec3, n: nat): Vec3 {
    Add(p, Scale(forward, n as real * MoveSpeed))
  }

  /** One coordinate: a step of `c` from `a` stays in the world when `n >= 1` steps do. */
  lemma StepWithinSegment(a: real, c: real, n: nat)
    requires 1 <= n
    requires -WorldBoundary <= a <= WorldBoundary
    requires -WorldBoundary <= a + c * (n as real) <= WorldBoundary
    ensures -WorldBoundary <= a + c <= WorldBoundary
  {
    var m := n as real - 1.0;
    assert m >= 0.0;
    assert a + c * (n as real) == a + c + c * m;
    if c >= 0.0 {
      assert c * m >= 0.0;
    } else {
      assert (-c) * m >= 0.0;
    }
  }

  /** One frame of `w` from a start inside the world, towards an `n`-frame target inside it, is not clamped. */
  lemma {:induction false} FirstStepInWorld(p: Vec3, forward: Vec3, n: nat)
    requires 1 <= n
    requires InWorld(p) && InWorld(Displaced(p, forward, n))
    ensures InWorld(Displaced(p, forward, 1))
    ensures Displaced(Displaced(p, forward, 1), forward, n - 1) == Displaced(p, forward, n)
  {
    var k := n as real * MoveSpeed;
    assert forward.x * k == forward.x * MoveSpeed * (n as real);
    assert forward.z * k == forward.z * MoveSpeed * (n as real);
    StepWithinSegment(p.x, forward.x * MoveSpeed, n);
    StepWithinSegment(p.z, forward.z * MoveSpeed, n);
    var m := (n - 1) as real * MoveSpeed;
    assert k == MoveSpeed + m;
    assert forward.x * k == forward.x * MoveSpeed + forward.x * m;
    assert forward.y * k == forward.y * MoveSpeed + forward.y * m;
    assert forward.z * k == forward.z * MoveSpeed + forward.z * m;
  }
}
