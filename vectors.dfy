/**
 * Two-dimensional vectors over the reals, standing in for the physics
 * engine's immutable `Vector` value (create, add, sub, mult, div).
 * Magnitudes are never taken: every distance test in the model is made
 * on the squared length, so no square root is needed.
 */
module Vectors {
  datatype Vec = Vec(x: real, y: real)

  const Zero := Vec(0.0, 0.0)

  function Add(a: Vec, b: Vec): Vec { Vec(a.x + b.x, a.y + b.y) }

  function Sub(a: Vec, b: Vec): Vec { Vec(a.x - b.x, a.y - b.y) }

  function Scale(a: Vec, k: real): Vec { Vec(a.x * k, a.y * k) }

  function Div(a: Vec, k: real): Vec
    requires k != 0.0
  {
    Vec(a.x / k, a.y / k)
  }

  /** The squared length |a|^2 = x^2 + y^2. */
  function Norm2(a: Vec): real { a.x * a.x + a.y * a.y }

  /** The squared distance between two points. */
  function Dist2(a: Vec, b: Vec): real { Norm2(Sub(a, b)) }

  /** Scaling a vector by k scales its squared length by k^2. */
  lemma ScaleNorm(a: Vec, k: real)
    ensures Norm2(Scale(a, k)) == k * k * Norm2(a)
  {
    assert (a.x * k) * (a.x * k) == k * k * (a.x * a.x);
    assert (a.y * k) * (a.y * k) == k * k * (a.y * a.y);
  }
}
