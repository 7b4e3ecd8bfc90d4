/** The Rössler flow: its velocity field and the analytic stability matrix
    (the Jacobian of the velocity field), over exact reals. */
module Rossler {
  import opened NumericArrays

  /** The fixed parameters of the flow. */
  const a: real := 0.2
  const b: real := 0.2
  const c: real := 5.7

  /** A point of the 3-dimensional state space, or a vector in it. */
  datatype Vec3 = Vec3(x: real, y: real, z: real)

  /** The 3-element array [x, y, z]. */
  function ToVector(v: Vec3): (s: Vector)
    ensures |s| == 3 && s[0] == v.x && s[1] == v.y && s[2] == v.z
  {
    [v.x, v.y, v.z]
  }

  function Add(u: Vec3, w: Vec3): Vec3
  {
    Vec3(u.x + w.x, u.y + w.y, u.z + w.z)
  }

  function Sub(u: Vec3, w: Vec3): Vec3
  {
    Vec3(u.x - w.x, u.y - w.y, u.z - w.z)
  }

  function Scale(k: real, v: Vec3): Vec3
  {
    Vec3(k * v.x, k * v.y, k * v.z)
  }

  /** The i-th coordinate, as in ssp[i]. */
  function Component(v: Vec3, i: nat): real
    requires i < 3
  {
    if i == 0 then v.x else if i == 1 then v.y else v.z
  }

  /** The j-th coordinate direction. */
  function Basis(j: nat): Vec3
    requires j < 3
  {
    if j == 0 then Vec3(1.0, 0.0, 0.0) else if j == 1 then Vec3(0.0, 1.0, 0.0) else Vec3(0.0, 0.0, 1.0)
  }

  /** The squared Euclidean length. */
  function SqNorm(v: Vec3): real
  {
    v.x * v.x + v.y * v.y + v.z * v.z
  }

  function Abs(r: real): real
  {
    if r < 0.0 then -r else r
  }

  /** The product of a 3-by-3 matrix with a step h; used to state that the
      stability matrix is the derivative of the velocity field. */
  function Apply(A: Matrix, h: Vec3): Vec3
    requires IsMatrix(A, 3, 3)
  {
    Vec3(Dot(A[0], ToVector(h)), Dot(A[1], ToVector(h)), Dot(A[2], ToVector(h)))
  }

  /** The velocity of the flow at state ssp. The time t is accepted so that the
      field has the signature integrators expect, and has no effect. */
  function Velocity(ssp: Vec3, t: real): Vec3
  {
    Vec3(-ssp.y - ssp.z, ssp.x + a * ssp.y, b + ssp.z * (ssp.x - c))
  }

  /** The stability matrix at ssp: entry (i, j) is the partial derivative of
      velocity component i with respect to state coordinate j. */
  function StabilityMatrix(ssp: Vec3): (A: Matrix)
    ensures IsMatrix(A, 3, 3)
  {
    [[0.0, -1.0, -1.0],
     [1.0, a, 0.0],
     [ssp.z, 0.0, ssp.x - c]]
  }

  /** The flow is autonomous: the time argument never changes the velocity. */
  lemma VelocityIsAutonomous(ssp: Vec3, t1: real, t2: real)
    ensures Velocity(ssp, t1) == Velocity(ssp, t2)
  {
  }

  /** Rows 0 and 1 of the stability matrix are the same at every state; row 2
      depends on x and z only, never on y. */
  lemma StabilityMatrixRows(s1: Vec3, s2: Vec3)
    ensures StabilityMatrix(s1)[0] == StabilityMatrix(s2)[0] == [0.0, -1.0, -1.0]
    ensures StabilityMatrix(s1)[1] == StabilityMatrix(s2)[1] == [1.0, a, 0.0]
    ensures s1.x == s2.x && s1.z == s2.z ==> StabilityMatrix(s1) == StabilityMatrix(s2)
  {
  }

  /** The exact increment of the velocity: the stability matrix gives its
      linear part and the only remainder is h.x * h.z in the third component. */
  lemma VelocityIncrement(ssp: Vec3, h: Vec3, t: real)
    ensures Velocity(Add(ssp, h), t)
         == Add(Add(Velocity(ssp, t), Apply(StabilityMatrix(ssp), h)), Vec3(0.0, 0.0, h.x * h.z))
  {
    var A := StabilityMatrix(ssp);
    Dot3(A[0], ToVector(h));
    Dot3(A[1], ToVector(h));
    Dot3(A[2], ToVector(h));
    assert (ssp.z + h.z) * ((ssp.x + h.x) - c)
        == ssp.z * (ssp.x - c) + (ssp.z * h.x + (ssp.x - c) * h.z) + h.x * h.z;
  }

  /** The remainder of the linearisation is of second order: it vanishes in the
      first two components and is at most half the squared length of h in the third. */
  lemma LinearizationRemainder(ssp: Vec3, h: Vec3, t: real)
    ensures var e := Sub(Sub(Velocity(Add(ssp, h), t), Velocity(ssp, t)), Apply(StabilityMatrix(ssp), h));
            e.x == 0.0 && e.y == 0.0 && 2.0 * Abs(e.z) <= SqNorm(h)
  {
    VelocityIncrement(ssp, h, t);
    var e := Sub(Sub(Velocity(Add(ssp, h), t), Velocity(ssp, t)), Apply(StabilityMatrix(ssp), h));
    assert e.z == h.x * h.z;
    ProductBound(h.x, h.z);
    assert 0.0 <= h.y * h.y;
  }

  /** Twice the size of a product is at most the sum of the squares. */
  lemma ProductBound(p: real, q: real)
    ensures 2.0 * Abs(p * q) <= p * p + q * q
  {
    var d, s := p - q, p + q;
    assert 0.0 <= d * d && d * d == p * p - 2.0 * (p * q) + q * q;
    assert 0.0 <= s * s && s * s == p * p + 2.0 * (p * q) + q * q;
  }

  /** The change of velocity component i per unit of a step of size eta along
      coordinate j. */
  function DifferenceQuotient(ssp: Vec3, i: nat, j: nat, eta: real, t: real): real
    requires i < 3 && j < 3 && eta != 0.0
  {
    (Component(Velocity(Add(ssp, Scale(eta, Basis(j))), t), i) - Component(Velocity(ssp, t), i)) / eta
  }

  /** Each entry of the stability matrix is the partial derivative it claims to
      be: the difference quotient of velocity component i along coordinate j
      equals entry (i, j) for every nonzero step eta, so it is also its limit. */
  lemma PartialDerivative(ssp: Vec3, i: nat, j: nat, eta: real, t: real)
    requires i < 3 && j < 3 && eta != 0.0
    ensures DifferenceQuotient(ssp, i, j, eta, t) == StabilityMatrix(ssp)[i][j]
  {
    AxisIncrement(ssp, i, j, eta, t);
    var d := Component(Velocity(Add(ssp, Scale(eta, Basis(j))), t), i) - Component(Velocity(ssp, t), i);
    Quotient(d, eta, StabilityMatrix(ssp)[i][j]);
  }

  /** A step of eta along coordinate j changes velocity component i by eta
      times entry (i, j) of the stability matrix. */
  lemma AxisIncrement(ssp: Vec3, i: nat, j: nat, eta: real, t: real)
    requires i < 3 && j < 3
    ensures Component(Velocity(Add(ssp, Scale(eta, Basis(j))), t), i) - Component(Velocity(ssp, t), i)
         == eta * StabilityMatrix(ssp)[i][j]
  {
    var h := Scale(eta, Basis(j));
    var A := StabilityMatrix(ssp);
    VelocityIncrement(ssp, h, t);
    assert h.x * h.z == 0.0 by {
      if j == 0 { assert h.z == 0.0; } else { assert h.x == 0.0; }
    }
    ApplyAlongAxis(A, j, eta);
  }

  /** A matrix applied to eta times a coordinate direction gives eta times that column. */
  lemma ApplyAlongAxis(A: Matrix, j: nat, eta: real)
    requires IsMatrix(A, 3, 3) && j < 3
    ensures Apply(A, Scale(eta, Basis(j))) == Vec3(eta * A[0][j], eta * A[1][j], eta * A[2][j])
  {
    var e := ToVector(Scale(eta, Basis(j)));
    Dot3(A[0], e);
    Dot3(A[1], e);
    Dot3(A[2], e);
  }

  /** Dividing eta * q by a nonzero eta gives q back. */
  lemma Quotient(d: real, eta: real, q: real)
    requires eta != 0.0 && d == eta * q
    ensures d / eta == q
  {
  }
}
