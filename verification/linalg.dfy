/** Dense real vectors and matrices: the part of Eigen's `VectorXd` and
    `MatrixXd` that the fusion controller relies on. A matrix is a sequence of
    rows; the shape is a predicate rather than part of the type, as with
    Eigen's dynamically sized matrices. */
module LinAlg {

  type Vector = seq<real>
  type Matrix = seq<seq<real>>

  /** `m` has `rows` rows of `cols` entries each */
  predicate IsMatrix(m: Matrix, rows: nat, cols: nat) {
    |m| == rows && forall i :: 0 <= i < rows ==> |m[i]| == cols
  }

  /** `m` is an `n`-by-`n` matrix equal to its own transpose */
  predicate IsSymmetric(m: Matrix, n: nat) {
    IsMatrix(m, n, n) && forall i, j :: 0 <= i < n && 0 <= j < n ==> m[i][j] == m[j][i]
  }

  function Zero(rows: nat, cols: nat): (z: Matrix)
    ensures IsMatrix(z, rows, cols)
    ensures forall i, j :: 0 <= i < rows && 0 <= j < cols ==> z[i][j] == 0.0
  {
    seq(rows, _ => seq(cols, _ => 0.0))
  }

  /** The square matrix with `d` on its diagonal and zero elsewhere */
  function Diagonal(d: Vector): (m: Matrix)
    ensures IsMatrix(m, |d|, |d|)
    ensures forall i, j :: 0 <= i < |d| && 0 <= j < |d| ==> m[i][j] == (if i == j then d[i] else 0.0)
  {
    seq(|d|, i requires 0 <= i < |d| => seq(|d|, j => if i == j then d[i] else 0.0))
  }

  function Identity(n: nat): (m: Matrix)
    ensures IsMatrix(m, n, n)
    ensures forall i, j :: 0 <= i < n && 0 <= j < n ==> m[i][j] == (if i == j then 1.0 else 0.0)
  {
    Diagonal(seq(n, _ => 1.0))
  }

  /** Two matrices of the same shape are equal when they agree entry by entry */
  lemma MatrixExtensionality(a: Matrix, b: Matrix, rows: nat, cols: nat)
    requires IsMatrix(a, rows, cols) && IsMatrix(b, rows, cols)
    requires forall i, j :: 0 <= i < rows && 0 <= j < cols ==> a[i][j] == b[i][j]
    ensures a == b
  {
    forall i | 0 <= i < rows
      ensures a[i] == b[i]
    {
      assert forall j :: 0 <= j < cols ==> a[i][j] == b[i][j];
    }
  }

  function Dot(a: Vector, b: Vector): (d: real)
    requires |a| == |b|
    decreases |a|
  {
    if |a| == 0 then 0.0 else a[0] * b[0] + Dot(a[1..], b[1..])
  }

  lemma Dot2(a: Vector, b: Vector)
    requires |a| == 2 && |b| == 2
    ensures Dot(a, b) == a[0] * b[0] + a[1] * b[1]
  {
    var a1, b1 := a[1..], b[1..];
    var a2, b2 := a1[1..], b1[1..];
    assert Dot(a2, b2) == 0.0;
    assert Dot(a1, b1) == a1[0] * b1[0] + Dot(a2, b2);
  }

  lemma Dot4(a: Vector, b: Vector)
    requires |a| == 4 && |b| == 4
    ensures Dot(a, b) == a[0] * b[0] + a[1] * b[1] + a[2] * b[2] + a[3] * b[3]
  {
    var a1, b1 := a[1..], b[1..];
    var a2, b2 := a1[1..], b1[1..];
    Dot2(a2, b2);
    assert Dot(a1, b1) == a1[0] * b1[0] + Dot(a2, b2);
  }

  /** Column `j` of `m` */
  function Column(m: Matrix, j: nat): (c: Vector)
    requires forall i :: 0 <= i < |m| ==> j < |m[i]|
    ensures |c| == |m|
    ensures forall i :: 0 <= i < |m| ==> c[i] == m[i][j]
  {
    seq(|m|, i requires 0 <= i < |m| => m[i][j])
  }

  /** The transpose of `m`, whose rows all have `cols` entries */
  function Transpose(m: Matrix, cols: nat): (t: Matrix)
    requires forall i :: 0 <= i < |m| ==> |m[i]| == cols
    ensures IsMatrix(t, cols, |m|)
    ensures forall i, j :: 0 <= i < cols && 0 <= j < |m| ==> t[i][j] == m[j][i]
  {
    seq(cols, j requires 0 <= j < cols => Column(m, j))
  }

  /** Matrix product `a * b`, where `b` has `cols` columns */
  function MatMul(a: Matrix, b: Matrix, cols: nat): (c: Matrix)
    requires forall i :: 0 <= i < |a| ==> |a[i]| == |b|
    requires forall k :: 0 <= k < |b| ==> |b[k]| == cols
    ensures IsMatrix(c, |a|, cols)
    ensures forall i, j :: 0 <= i < |a| && 0 <= j < cols ==> c[i][j] == Dot(a[i], Column(b, j))
  {
    seq(|a|, i requires 0 <= i < |a| => seq(cols, j requires 0 <= j < cols => Dot(a[i], Column(b, j))))
  }

  /** Matrix-vector product `m * v` */
  function MatVec(m: Matrix, v: Vector): (r: Vector)
    requires forall i :: 0 <= i < |m| ==> |m[i]| == |v|
    ensures |r| == |m|
    ensures forall i :: 0 <= i < |m| ==> r[i] == Dot(m[i], v)
  {
    seq(|m|, i requires 0 <= i < |m| => Dot(m[i], v))
  }
}
