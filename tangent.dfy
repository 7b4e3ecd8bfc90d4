/** The augmented system integrated to obtain the Jacobian of the Rössler
    flow: a 12-entry buffer holding the state (entries 0..2) followed by the
    3-by-3 tangent matrix J in row-major order (entries 3..11), and its
    velocity, dx/dt = Velocity(x) together with dJ/dt = StabilityMatrix(x) J. */
module Tangent {
  import opened NumericArrays
  import opened Rossler

  /** The augmented state for state ssp and tangent matrix J. */
  function Pack(ssp: Vec3, J: Matrix): (v: Vector)
    requires IsMatrix(J, 3, 3)
    ensures |v| == 12 && v[..3] == ToVector(ssp) && v[3..] == Flatten(J)
  {
    FlattenShape(J, 3, 3);
    ToVector(ssp) + Flatten(J)
  }

  /** The state slice sspJacobian[0:3], read as (x, y, z). */
  function StateOf(v: Vector): (ssp: Vec3)
    requires |v| >= 3
    ensures ToVector(ssp) == v[..3]
  {
    Vec3(v[0], v[1], v[2])
  }

  /** sspJacobian[3:].reshape((3, 3)): the tangent matrix. The slice is empty
      when the buffer has fewer than 3 entries, so the reshape fails exactly
      when the buffer does not have 12 entries. */
  function TangentOf(v: Vector): (r: Result<Matrix>)
    ensures r.Ok? <==> |v| == 12
    ensures r.Ok? ==> IsMatrix(r.value, 3, 3)
  {
    Reshape(if |v| >= 3 then v[3..] else [], 3, 3)
  }

  /** Entry (i, j) of the tangent matrix is entry 3 + 3i + j of the buffer. */
  lemma TangentOfAt(v: Vector, i: nat, j: nat)
    requires |v| == 12 && i < 3 && j < 3
    ensures TangentOf(v).value[i][j] == v[3 + 3 * i + j]
  {
    ReshapeAt(v[3..], 3, 3, i, j);
  }

  /** The velocity of the augmented system: the flow's velocity at the state
      slice, followed by the row-major flattening of the stability matrix at
      that state times the tangent matrix. Fails when the buffer does not
      hold 12 entries. */
  function AugmentedVelocity(v: Vector, t: real): (r: Result<Vector>)
    ensures r.Ok? <==> |v| == 12
    ensures r.Ok? ==> |r.value| == 12
    ensures r.Err? ==> r.error == CannotReshape(if |v| >= 3 then |v| - 3 else 0, 3, 3)
  {
    match TangentOf(v)
    case Err(e) => Err(e)
    case Ok(J) =>
      var ssp := StateOf(v);
      var velTangent := MatMul(StabilityMatrix(ssp), J, 3, 3, 3);
      FlattenShape(velTangent, 3, 3);
      Ok(ToVector(Velocity(ssp, t)) + Flatten(velTangent))
  }

  /** The first three entries of the augmented velocity are the flow's
      velocity at the state slice; they do not depend on the tangent entries. */
  lemma AugmentedVelocityState(v: Vector, w: Vector, t: real)
    requires |v| == 12 && |w| == 12 && v[..3] == w[..3]
    ensures AugmentedVelocity(v, t).value[..3] == ToVector(Velocity(StateOf(v), t))
    ensures AugmentedVelocity(v, t).value[..3] == AugmentedVelocity(w, t).value[..3]
  {
    assert StateOf(v) == StateOf(w);
  }

  /** The time argument has no effect on the augmented velocity, as on the
      flow's own velocity: any two times give the same result. */
  lemma AugmentedVelocityIsAutonomous(v: Vector, t1: real, t2: real)
    ensures AugmentedVelocity(v, t1) == AugmentedVelocity(v, t2)
  {
    if |v| == 12 {
      VelocityIsAutonomous(StateOf(v), t1, t2);
    }
  }

  /** Entry 3 + 3i + j of the augmented velocity is entry (i, j) of the
      product of the stability matrix with J, where J[k][j] = v[3 + 3k + j]. */
  lemma AugmentedVelocityAt(v: Vector, t: real, i: nat, j: nat)
    requires |v| == 12 && i < 3 && j < 3
    ensures var A := StabilityMatrix(StateOf(v));
            AugmentedVelocity(v, t).value[3 + 3 * i + j]
            == A[i][0] * v[3 + j] + A[i][1] * v[6 + j] + A[i][2] * v[9 + j]
  {
    var ssp := StateOf(v);
    var A := StabilityMatrix(ssp);
    var J := TangentOf(v).value;
    var C := MatMul(A, J, 3, 3, 3);
    FlattenAt(C, 3, 3, i, j);
    var col := Column(J, j);
    Dot3(A[i], col);
    TangentOfAt(v, 0, j);
    TangentOfAt(v, 1, j);
    TangentOfAt(v, 2, j);
    assert col == [v[3 + j], v[6 + j], v[9 + j]];
    assert AugmentedVelocity(v, t).value == ToVector(Velocity(ssp, t)) + Flatten(C);
  }

  /** The tangent part of the augmented velocity is linear in the tangent
      entries: combining the tangent entries of two buffers with the same state
      combines their tangent velocities the same way, and leaves the state
      velocity unchanged. */
  lemma TangentLinear(v1: Vector, v2: Vector, alpha: real, beta: real, t: real)
    requires |v1| == 12 && |v2| == 12 && v1[..3] == v2[..3]
    ensures var w := v1[..3] + Combine(alpha, v1[3..], beta, v2[3..]);
            var r, r1, r2 := AugmentedVelocity(w, t), AugmentedVelocity(v1, t), AugmentedVelocity(v2, t);
            r.Ok? && r.value[..3] == r1.value[..3]
            && r.value[3..] == Combine(alpha, r1.value[3..], beta, r2.value[3..])
  {
    var w := v1[..3] + Combine(alpha, v1[3..], beta, v2[3..]);
    var r, r1, r2 := AugmentedVelocity(w, t), AugmentedVelocity(v1, t), AugmentedVelocity(v2, t);
    AugmentedVelocityState(w, v1, t);
    forall m | 0 <= m < 9
      ensures r.value[3..][m] == Combine(alpha, r1.value[3..], beta, r2.value[3..])[m]
    {
      var i, j := m / 3, m % 3;
      assert m == 3 * i + j;
      TangentLinearAt(v1, v2, w, alpha, beta, t, i, j);
    }
  }

  /** One entry of TangentLinear. */
  lemma TangentLinearAt(v1: Vector, v2: Vector, w: Vector, alpha: real, beta: real, t: real, i: nat, j: nat)
    requires |v1| == 12 && |v2| == 12 && v1[..3] == v2[..3]
    requires w == v1[..3] + Combine(alpha, v1[3..], beta, v2[3..])
    requires i < 3 && j < 3
    ensures AugmentedVelocity(w, t).value[3 + 3 * i + j]
         == alpha * AugmentedVelocity(v1, t).value[3 + 3 * i + j] + beta * AugmentedVelocity(v2, t).value[3 + 3 * i + j]
  {
    assert StateOf(w) == StateOf(v1) == StateOf(v2);
    var A := StabilityMatrix(StateOf(v1));
    var x0, x1, x2 := v1[3 + j], v1[6 + j], v1[9 + j];
    var y0, y1, y2 := v2[3 + j], v2[6 + j], v2[9 + j];
    assert w[3 + j] == alpha * x0 + beta * y0;
    assert w[6 + j] == alpha * x1 + beta * y1;
    assert w[9 + j] == alpha * x2 + beta * y2;
    AugmentedVelocityAt(w, t, i, j);
    AugmentedVelocityAt(v1, t, i, j);
    AugmentedVelocityAt(v2, t, i, j);
    Bilinear(A[i][0], A[i][1], A[i][2], x0, x1, x2, y0, y1, y2, alpha, beta);
  }

  /** The sum of three products is linear in its second factors. */
  lemma Bilinear(p0: real, p1: real, p2: real, x0: real, x1: real, x2: real,
                 y0: real, y1: real, y2: real, alpha: real, beta: real)
    ensures p0 * (alpha * x0 + beta * y0) + p1 * (alpha * x1 + beta * y1) + p2 * (alpha * x2 + beta * y2)
         == alpha * (p0 * x0 + p1 * x1 + p2 * x2) + beta * (p0 * y0 + p1 * y1 + p2 * y2)
  {
  }

  /** Unpacking a packed buffer gives back the state and the tangent matrix. */
  lemma UnpackPack(ssp: Vec3, J: Matrix)
    requires IsMatrix(J, 3, 3)
    ensures StateOf(Pack(ssp, J)) == ssp && TangentOf(Pack(ssp, J)) == Ok(J)
  {
    ReshapeOfFlatten(J, 3, 3);
  }

  /** Packing the unpacked state and tangent matrix gives back the buffer. */
  lemma PackUnpack(v: Vector)
    requires |v| == 12
    ensures Pack(StateOf(v), TangentOf(v).value) == v
  {
    FlattenOfReshape(v[3..], 3, 3);
    assert v == v[..3] + v[3..];
  }

  /** The initial augmented state: the state followed by the 3-by-3 identity. */
  lemma PackedIdentity(ssp: Vec3)
    ensures Pack(ssp, Identity(3))
         == [ssp.x, ssp.y, ssp.z, 1.0, 0.0, 0.0, 0.0, 1.0, 0.0, 0.0, 0.0, 1.0]
  {
    var I := Identity(3);
    assert I[1..][1..][1..] == [];
    assert Flatten(I) == I[0] + (I[1] + (I[2] + []));
  }

  /** At the initial augmented state the tangent velocity is the stability
      matrix itself, since the tangent matrix there is the identity. */
  lemma InitialTangentVelocity(ssp: Vec3, t: real)
    ensures AugmentedVelocity(Pack(ssp, Identity(3)), t)
         == Ok(ToVector(Velocity(ssp, t)) + Flatten(StabilityMatrix(ssp)))
  {
    UnpackPack(ssp, Identity(3));
    MatMulIdentity(StabilityMatrix(ssp), 3, 3);
  }

  /** The velocity of the augmented system, computed into a new buffer whose
      slices [0:3] and [3:] are filled in turn. */
  method JacobianVelocity(sspJacobian: array<real>, t: real) returns (r: Result<array<real>>)
    ensures r.Ok? <==> sspJacobian.Length == 12
    ensures r.Ok? ==> fresh(r.value) && r.value[..] == AugmentedVelocity(sspJacobian[..], t).value
    ensures r.Err? ==> r.error == AugmentedVelocity(sspJacobian[..], t).error
  {
    var v := sspJacobian[..];
    var tangent := TangentOf(v);
    if tangent.Err? {
      return Err(tangent.error);
    }
    var ssp := StateOf(v);
    var J := tangent.value;
    var velJ := new real[sspJacobian.Length](_ => 0.0);
    var vel := Velocity(ssp, t);
    velJ[0], velJ[1], velJ[2] := vel.x, vel.y, vel.z;
    var velTangent := MatMul(StabilityMatrix(ssp), J, 3, 3, 3);
    var flat := Flatten(velTangent);
    FlattenShape(velTangent, 3, 3);
    forall k | 0 <= k < 9 {
      velJ[3 + k] := flat[k];
    }
    assert velJ[..] == ToVector(vel) + flat;
    assert AugmentedVelocity(v, t) == Ok(ToVector(vel) + flat);
    assert sspJacobian[..] == v;
    r := Ok(velJ);
  }

  /** The initial condition of the Jacobian integration, written into a new
      12-entry buffer: the state in [0:3], the flattened identity in [3:]. */
  method InitialAugmentedState(ssp: Vec3) returns (sspJacobian0: array<real>)
    ensures fresh(sspJacobian0)
    ensures sspJacobian0[..] == Pack(ssp, Identity(3))
  {
    var J0 := Identity(3);
    sspJacobian0 := new real[3 + 3 * 3](_ => 0.0);
    sspJacobian0[0], sspJacobian0[1], sspJacobian0[2] := ssp.x, ssp.y, ssp.z;
    var flat := Flatten(J0);
    FlattenShape(J0, 3, 3);
    forall k | 0 <= k < 9 {
      sspJacobian0[3 + k] := flat[k];
    }
    assert sspJacobian0[..] == ToVector(ssp) + flat;
  }
}
