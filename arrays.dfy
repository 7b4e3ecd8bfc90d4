/** The NumPy array operations the Rössler core relies on, over exact reals:
    C-order (row-major) flattening and reshaping, matrix products and the
    identity matrix. Vectors are sequences, matrices sequences of rows. */
module NumericArrays {

  type Vector = seq<real>
  type Matrix = seq<seq<real>>

  /** np.reshape raises a ValueError when the number of elements does not
      fit the requested shape. */
  datatype ShapeError = CannotReshape(size: nat, rows: nat, cols: nat)

  datatype Result<T> = Ok(value: T) | Err(error: ShapeError)

  /** M has `rows` rows of `cols` entries each. */
  predicate IsMatrix(M: Matrix, rows: nat, cols: nat)
  {
    |M| == rows && forall i :: 0 <= i < rows ==> |M[i]| == cols
  }

  /** np.reshape(M, n) of a 2-D array: its rows one after the other. */
  function Flatten(M: Matrix): Vector
  {
    if M == [] then [] else M[0] + Flatten(M[1..])
  }

  lemma {:induction false} FlattenShape(M: Matrix, rows: nat, cols: nat)
    requires IsMatrix(M, rows, cols)
    ensures |Flatten(M)| == rows * cols
  {
    if rows > 0 {
      FlattenShape(M[1..], rows - 1, cols);
    }
  }

  /** Entry (i, j) of a rows-by-cols matrix lands at position cols*i + j. */
  lemma {:induction false} FlattenAt(M: Matrix, rows: nat, cols: nat, i: nat, j: nat)
    requires IsMatrix(M, rows, cols) && i < rows && j < cols
    ensures cols * i + j < |Flatten(M)| && Flatten(M)[cols * i + j] == M[i][j]
  {
    if i > 0 {
      FlattenAt(M[1..], rows - 1, cols, i - 1, j);
      assert cols * i + j == cols + (cols * (i - 1) + j);
    }
  }

  /** The successful case of a C-order reshape: cut v into `rows` pieces of
      length `cols`. */
  function Rows(v: Vector, rows: nat, cols: nat): (M: Matrix)
    requires |v| == rows * cols
    ensures IsMatrix(M, rows, cols)
    decreases rows
  {
    if rows == 0 then []
    else
      assert |v| == cols + (rows - 1) * cols;
      [v[..cols]] + Rows(v[cols..], rows - 1, cols)
  }

  /** np.reshape(v, (rows, cols)): fails exactly when the sizes disagree. */
  function Reshape(v: Vector, rows: nat, cols: nat): (r: Result<Matrix>)
    ensures r.Ok? <==> |v| == rows * cols
    ensures r.Ok? ==> IsMatrix(r.value, rows, cols)
    ensures r.Err? ==> r.error == CannotReshape(|v|, rows, cols)
  {
    if |v| == rows * cols then Ok(Rows(v, rows, cols)) else Err(CannotReshape(|v|, rows, cols))
  }

  /** Entry (i, j) of the reshaped matrix is element cols*i + j of the buffer. */
  lemma {:induction false} ReshapeAt(v: Vector, rows: nat, cols: nat, i: nat, j: nat)
    requires |v| == rows * cols && i < rows && j < cols
    ensures cols * i + j < |v| && Reshape(v, rows, cols).value[i][j] == v[cols * i + j]
  {
    MulSucc(cols, rows - 1);
    var M := Rows(v, rows, cols);
    if i == 0 {
      assert M[0] == v[..cols];
    } else {
      ReshapeAt(v[cols..], rows - 1, cols, i - 1, j);
      assert M[i] == Rows(v[cols..], rows - 1, cols)[i - 1];
      MulSucc(cols, i - 1);
      MulSucc(cols, rows - 1);
    }
  }

  /** m * (n + 1) == m + m * n. */
  lemma MulSucc(m: nat, n: nat)
    ensures m * (n + 1) == m + m * n
  {
  }

  /** Reshaping a flattened matrix gives the matrix back. */
  lemma {:induction false} ReshapeOfFlatten(M: Matrix, rows: nat, cols: nat)
    requires IsMatrix(M, rows, cols)
    ensures Reshape(Flatten(M), rows, cols) == Ok(M)
  {
    FlattenShape(M, rows, cols);
    if rows > 0 {
      ReshapeOfFlatten(M[1..], rows - 1, cols);
      FlattenShape(M[1..], rows - 1, cols);
      var v := Flatten(M);
      assert v[..cols] == M[0];
      assert v[cols..] == Flatten(M[1..]);
      assert Rows(v, rows, cols) == [M[0]] + M[1..] == M;
    }
  }

  /** Flattening a reshaped buffer gives the buffer back. */
  lemma {:induction false} FlattenOfReshape(v: Vector, rows: nat, cols: nat)
    requires |v| == rows * cols
    ensures Reshape(v, rows, cols).Ok? && Flatten(Reshape(v, rows, cols).value) == v
  {
    if rows > 0 {
      assert |v| == cols + (rows - 1) * cols;
      FlattenOfReshape(v[cols..], rows - 1, cols);
      var M := Rows(v, rows, cols);
      assert M[1..] == Rows(v[cols..], rows - 1, cols);
      assert v == v[..cols] + v[cols..];
    }
  }

  /** np.identity(n). */
  function Identity(n: nat): (I: Matrix)
    ensures IsMatrix(I, n, n)
  {
    seq(n, i => seq(n, j => if i == j then 1.0 else 0.0))
  }

  /** The inner product of two vectors of equal length. */
  function Dot(u: Vector, w: Vector): real
    requires |u| == |w|
  {
    if u == [] then 0.0 else u[0] * w[0] + Dot(u[1..], w[1..])
  }

  function Column(M: Matrix, j: nat): (col: Vector)
    requires forall i :: 0 <= i < |M| ==> j < |M[i]|
    ensures |col| == |M|
  {
    seq(|M|, i requires 0 <= i < |M| => M[i][j])
  }

  /** np.dot of an n-by-m and an m-by-p matrix. */
  function MatMul(A: Matrix, B: Matrix, n: nat, m: nat, p: nat): (C: Matrix)
    requires IsMatrix(A, n, m) && IsMatrix(B, m, p)
    ensures IsMatrix(C, n, p)
  {
    seq(n, i requires 0 <= i < n => seq(p, j requires 0 <= j < p => Dot(A[i], Column(B, j))))
  }

  /** The vector of length n with a single 1 at position j (all zeros when j is out of range). */
  function Unit(n: nat, j: int): (e: Vector)
    ensures |e| == n
  {
    seq(n, k => if k == j then 1.0 else 0.0)
  }

  /** The inner product with a unit vector selects one entry. */
  lemma {:induction false} DotUnit(u: Vector, j: int)
    ensures Dot(u, Unit(|u|, j)) == if 0 <= j < |u| then u[j] else 0.0
  {
    if u != [] {
      assert Unit(|u|, j)[1..] == Unit(|u| - 1, j - 1);
      DotUnit(u[1..], j - 1);
    }
  }

  /** The identity is a right unit of the matrix product. */
  lemma MatMulIdentity(A: Matrix, n: nat, m: nat)
    requires IsMatrix(A, n, m)
    ensures MatMul(A, Identity(m), n, m, m) == A
  {
    var C := MatMul(A, Identity(m), n, m, m);
    forall i | 0 <= i < n
      ensures C[i] == A[i]
    {
      forall j | 0 <= j < m
        ensures C[i][j] == A[i][j]
      {
        assert Column(Identity(m), j) == Unit(m, j);
        DotUnit(A[i], j);
      }
    }
  }

  /** The inner product of two 3-vectors, written out. */
  lemma Dot3(u: Vector, w: Vector)
    requires |u| == 3 && |w| == 3
    ensures Dot(u, w) == u[0] * w[0] + u[1] * w[1] + u[2] * w[2]
  {
    assert Dot(u[2..], w[2..]) == u[2] * w[2] + Dot([], []);
    assert Dot(u[1..], w[1..]) == u[1] * w[1] + Dot(u[2..], w[2..]);
  }

  /** The linear combination alpha*u + beta*w, entry by entry. */
  function Combine(alpha: real, u: Vector, beta: real, w: Vector): (r: Vector)
    requires |u| == |w|
    ensures |r| == |u|
  {
    seq(|u|, k requires 0 <= k < |u| => alpha * u[k] + beta * w[k])
  }
}
