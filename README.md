# Rössler flow: velocity field, stability matrix and tangent-space layout

This project models the exact algebra behind the Rössler-flow module `Rossler.py`,
over Dafny's exact `real` numbers. The module feeds this algebra to a numerical ODE
solver.

- **Velocity field.** `Velocity(ssp, t)` is the Rössler vector field
  `(-y - z, x + a*y, b + z*(x - c))` with the fixed parameters a = b = 0.2 and c = 5.7.
  The time argument is accepted and ignored.
- **Stability matrix.** `StabilityMatrix(ssp)` is the analytic Jacobian of the
  velocity field. The model proves that it really is that derivative:
  - the velocity increment is `A(s)·h` plus the single second-order remainder
    `(0, 0, h.x*h.z)`;
  - that remainder is at most half of |h|²;
  - every axis-aligned difference quotient equals the matching entry of the matrix exactly.
- **Augmented state.** Tangent-space integration uses a 12-entry buffer: the state,
  then the 3×3 tangent matrix J in row-major (NumPy C) order.
  - `JacobianVelocity` maps such a buffer to its velocity: `Velocity(state)` followed by
    the flattened `StabilityMatrix(state)·J`.
  - `Jacobian` packs the state with the identity matrix into a fresh buffer and later
    reads the last nine entries back as a matrix.

The model has three modules:

- `NumericArrays` (`arrays.dfy`) covers the NumPy operations the code uses:
  - C-order `reshape` / flattening, with `reshape`'s ValueError as an `Err` result;
  - `np.dot` on matrices;
  - `np.identity`.

  It also proves that flattening and reshaping are mutual inverses.
- `Rossler` (`rossler.dfy`) holds the constants, the state triple `Vec3`, `Velocity`,
  `StabilityMatrix` and the derivative lemmas.
- `Tangent` (`tangent.dfy`) holds the layout of the 12-entry buffer:
  - `Pack`, `StateOf` and `TangentOf`;
  - the pure specification `AugmentedVelocity`;
  - the imperative `JacobianVelocity`, which allocates a zero buffer and fills its
    slices `[0:3]` and `[3:]` as the source does;
  - the imperative `InitialAugmentedState` (the packing in `Jacobian`);
  - lemmas on layout, round-trips and linearity in J.

Slice assignments such as `velJ[3:] = ...` are modelled as Dafny `forall` statements.
These are parallel element-wise assignments.

The code does not check the sign of the integration time `t` in `Jacobian`, so the model
adds no such error. The core has three NumPy error conditions:

- The reshape fails when the augmented buffer does not hold exactly 12 entries
  (Rossler.py:90, 132). The model carries this as `Err(CannotReshape(..))`.
- The unpacking `x, y, z = ssp` fails for a state of any length other than 3
  (Rossler.py:26, 66).
- The slice assignment `sspJacobian0[0:3] = ssp` fails for a state of length 0, 2, or
  4 or more (Rossler.py:121).

The model's state type `Vec3` always holds exactly three coordinates. So the last two
errors cannot arise in the model (see "## Left out").

## Model

| member | source | states |
|---|---|---|
| `Rossler.Velocity` | Rossler.py:26-32 | The Rössler field with a = b = 0.2 and c = 5.7. Its properties are proved in lemmas: `VelocityIsAutonomous` (time has no effect), and `VelocityIncrement` and `PartialDerivative` (the stability matrix is its exact derivative) |
| `Rossler.VelocityIsAutonomous` | Rossler.py:12-33 | The velocity does not depend on the time argument: any two times give the same vector |
| `Rossler.StabilityMatrix` | Rossler.py:66-71 | The stability matrix is a 3-by-3 array |
| `Rossler.StabilityMatrixRows` | Rossler.py:66-70 | Rows 0 and 1 are the constant rows (0, -1, -1) and (1, a, 0) at every state; two states with equal x and z (any y) have the same matrix |
| `Rossler.VelocityIncrement` | Rossler.py:63-70 | For every state s and step h, Velocity(s + h) = Velocity(s) + A(s)·h + (0, 0, h.x·h.z): the matrix is the exact linear part of the field's increment |
| `Rossler.LinearizationRemainder` | Rossler.py:63 | The remainder Velocity(s + h) - Velocity(s) - A(s)·h is zero in x and y, and its z part is at most \|h\|²/2, so it is second order and A(s) is the derivative |
| `Rossler.PartialDerivative` | Rossler.py:60-70 | A[i][j] = ∂Velocity_i/∂ssp_j: the difference quotient of component i along coordinate j equals A[i][j] for every nonzero step |
| `Rossler.AxisIncrement` | Rossler.py:63-70 | A step eta along coordinate j changes velocity component i by exactly eta·A[i][j] |
| `NumericArrays.Flatten` | Rossler.py:101 | np.reshape(M, 9) of a 3-by-3 array (also at Rossler.py:122). `FlattenShape` and `FlattenAt` prove its length and the position of each entry; `ReshapeOfFlatten` and `FlattenOfReshape` prove that it and reshape undo each other |
| `NumericArrays.MatMul` | Rossler.py:99 | np.dot of two matrices gives an n-by-p matrix. `AugmentedVelocityAt` proves each entry is Σ_k A[i][k]·J[k][j]; `MatMulIdentity` proves the identity is a right unit |
| `NumericArrays.Identity` | Rossler.py:116 | np.identity(n) is n-by-n. `PackedIdentity` proves that its flattening for n = 3 is (1, 0, 0, 0, 1, 0, 0, 0, 1); `MatMulIdentity` proves A·I = A |
| `NumericArrays.Reshape` | Rossler.py:90 | reshape((rows, cols)) succeeds exactly when the buffer has rows·cols entries and then gives a rows-by-cols matrix; otherwise it gives the size-mismatch error |
| `NumericArrays.ReshapeAt` | Rossler.py:90 | In C order, entry (i, j) of the reshaped matrix is buffer element cols·i + j |
| `NumericArrays.FlattenShape` | Rossler.py:101 | Flattening a rows-by-cols matrix gives rows·cols entries |
| `NumericArrays.FlattenAt` | Rossler.py:101 | Flattening puts entry (i, j) at position cols·i + j |
| `NumericArrays.ReshapeOfFlatten` | Rossler.py:122 | Reshaping a flattened matrix gives the same matrix back |
| `NumericArrays.FlattenOfReshape` | Rossler.py:90 | Flattening a reshaped buffer gives the same buffer back |
| `NumericArrays.MatMulIdentity` | Rossler.py:99 | np.dot(A, identity) = A for every matrix A |
| `Tangent.Pack` | Rossler.py:120-122 | The augmented buffer has 12 entries: the state in [0:3], then the flattened matrix in [3:] |
| `Tangent.StateOf` | Rossler.py:88 | The state read from a buffer is its first three entries |
| `Tangent.TangentOf` | Rossler.py:90 | The tangent matrix can be read exactly when the buffer has 12 entries, and it is then 3-by-3 |
| `Tangent.TangentOfAt` | Rossler.py:90 | J[i][j] = buffer[3 + 3i + j] |
| `Tangent.AugmentedVelocity` | Rossler.py:88-103 | The augmented velocity is defined exactly for 12-entry buffers and then has 12 entries; any other length gives the reshape error `CannotReshape(n, 3, 3)`, where n is the length of the slice `[3:]`. `AugmentedVelocityIsAutonomous` proves that the time argument has no effect |
| `Tangent.AugmentedVelocityIsAutonomous` | Rossler.py:81-83 | The time argument has no effect on the augmented velocity: any two times give the same result, for every buffer |
| `Tangent.AugmentedVelocityState` | Rossler.py:88-96 | Entries 0..2 of the augmented velocity are Velocity of the state slice, and two buffers with the same state slice have the same entries 0..2 |
| `Tangent.AugmentedVelocityAt` | Rossler.py:99-101 | Entry 3 + 3i + j of the augmented velocity is Σ_k A[i][k]·buffer[3 + 3k + j], with A the stability matrix at the state slice |
| `Tangent.TangentLinear` | Rossler.py:96-101 | If the tangent entries of two buffers with the same state are combined as α·J1 + β·J2, the tangent velocities combine in the same way and entries 0..2 stay the same |
| `Tangent.TangentLinearAt` | Rossler.py:99-101 | The single-entry form of the linearity in J |
| `Tangent.UnpackPack` | Rossler.py:116-132 | Unpacking the packed buffer (the state slice, then reshaping entries 3..11) gives back the state and the matrix |
| `Tangent.PackUnpack` | Rossler.py:88-90 | Packing the unpacked state and matrix of any 12-entry buffer gives back that buffer |
| `Tangent.PackedIdentity` | Rossler.py:116-122 | The initial buffer is (x, y, z, 1, 0, 0, 0, 1, 0, 0, 0, 1) |
| `Tangent.InitialTangentVelocity` | Rossler.py:116-122 | At the initial buffer the tangent velocity is the flattened stability matrix itself, since A·I = A |
| `Tangent.JacobianVelocity` | Rossler.py:74-103 | Fails exactly when the input array does not have 12 entries. Otherwise it returns a freshly allocated array whose contents equal the augmented velocity, which by `AugmentedVelocityIsAutonomous` does not depend on t |
| `Tangent.InitialAugmentedState` | Rossler.py:116-122 | Returns a freshly allocated array holding the state followed by the flattened identity |

## Left out

- `Flow` (Rossler.py:36-52) and the integration step of `Jacobian` (Rossler.py:129) call SciPy's `odeint`, an adaptive floating-point solver whose code is not part of this model. Properties that depend on it are not modelled: the identity flow at zero time, invertibility of the flow Jacobian, the composition law, and the final point of the trajectory that the driver prints (Rossler.py:157-163).
- The time grid of `Jacobian` (`Nt = t * 100`, `np.linspace`, Rossler.py:126-127) is not modelled. `linspace` takes its sample count through `operator.index` (NumPy 1.18 and later), so `Nt` must be a Python int. On such a NumPy the outcome depends on `t` as follows:
  - Every float `t`, integral-valued or not (`t = 2.0` gives `Nt = 200.0`), raises a TypeError at line 127.
  - A negative int `t` gives a negative sample count, and `linspace` raises a ValueError.
  - `t = 0` gives an empty grid. The run then fails, because there is no last sample to read at line 132.
  - An int `t >= 1` gives `100 * t` samples, the last of them at time `t`. This is the only case in which `Jacobian` runs.
  - NumPy before 1.18 truncated a float sample count instead. There `t * 100 == 1` gave the grid `[0.0]`, and `Jacobian` returned the identity.

  The code does not check `t` itself, so the model adds no error for a non-positive time.
- Reading the last sample of the solution (`sspJacobianSolution[-1, ...]`, Rossler.py:132) is modelled only as reading the trailing nine entries of one 12-entry buffer (`Tangent.TangentOf`), because the solution array comes from the solver.
- IEEE-754 rounding: all arithmetic is over exact reals, so `np.array(..., float)` conversions are not modelled.
- Rossler.Velocity, Rossler.StabilityMatrix, Tangent.Pack: the state is the typed triple `Vec3`, so a state array of another length cannot be represented. This leaves out two behaviours:
  - `x, y, z = ssp` (Rossler.py:26, 66) raises a ValueError for every length other than 3.
  - The packing `sspJacobian0[0:3] = ssp` (Rossler.py:121) broadcasts a one-element array or a scalar `v` to `(v, v, v)` without error, so `Jacobian([v], t)` runs as `Jacobian((v, v, v), t)`. A state of length 0, 2, or 4 or more raises a ValueError there, since its shape broadcasts into `(3,)` only for length 1 or 3.
- Tangent.JacobianVelocity: returns a new Dafny array instead of a NumPy array, and the length-mismatch error comes back as an `Err` value instead of a raised exception.
- The `__main__` driver (Rossler.py:136-176): the `RungeKutta` import, printing and the matplotlib plot.
