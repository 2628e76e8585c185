/** Two-dimensional vectors over ideal reals, and the position-only (Verlet)
    integration step shared by the fire particles and the cloth particles. */
module Vectors {

  datatype Vec = Vec(x: real, y: real)

  const Zero: Vec := Vec(0.0, 0.0)

  function Add(u: Vec, v: Vec): Vec { Vec(u.x + v.x, u.y + v.y) }

  function Sub(u: Vec, v: Vec): Vec { Vec(u.x - v.x, u.y - v.y) }

  function Neg(v: Vec): Vec { Vec(-v.x, -v.y) }

  function Scale(c: real, v: Vec): Vec { Vec(c * v.x, c * v.y) }

  function Dot(u: Vec, v: Vec): real { u.x * v.x + u.y * v.y }

  /** The z-component of the 3D cross product; positive when `v` lies
      counter-clockwise of `u`. */
  function Cross(u: Vec, v: Vec): real { u.x * v.y - u.y * v.x }

  /** `d` is the Euclidean length of `v`. Lengths are never computed by the
      model: whoever needs one is handed it together with this fact. */
  predicate IsNorm(v: Vec, d: real) { d >= 0.0 && d * d == Dot(v, v) }

  /** One damped Verlet step: the implicit velocity is the last displacement
      scaled by `damping`, and the accumulated acceleration is added on top. */
  function VerletPosition(position: Vec, previous: Vec, acceleration: Vec, damping: real): Vec
  {
    Add(Add(position, Scale(damping, Sub(position, previous))), acceleration)
  }

  /** `c` to the power `n`. */
  function Power(c: real, n: nat): real
    decreases n
  {
    if n == 0 then 1.0 else c * Power(c, n - 1)
  }

  /** Position and previous position of a free particle after `n` force-free
      steps damped by `damping`. */
  function Glide(position: Vec, previous: Vec, damping: real, n: nat): (r: (Vec, Vec))
    decreases n
  {
    if n == 0 then (position, previous)
    else Glide(VerletPosition(position, previous, Zero, damping), position, damping, n - 1)
  }

  /** Without forces the implicit velocity (the last displacement) shrinks
      by the damping factor at every step: after `n` steps it is `damping^n`
      times the initial one. */
  lemma {:induction false} GlideDecays(position: Vec, previous: Vec, damping: real, n: nat)
    ensures Sub(Glide(position, previous, damping, n).0, Glide(position, previous, damping, n).1)
              == Scale(Power(damping, n), Sub(position, previous))
    decreases n
  {
    if n > 0 {
      var next := VerletPosition(position, previous, Zero, damping);
      var d := Sub(position, previous);
      assert Sub(next, position) == Scale(damping, d);
      GlideDecays(next, position, damping, n - 1);
      var p := Power(damping, n - 1);
      assert p * (damping * d.x) == (damping * p) * d.x;
      assert p * (damping * d.y) == (damping * p) * d.y;
    }
  }
}
