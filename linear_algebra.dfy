/**
 * Real vectors and matrices as the oriented-bounding-box code uses VNL's
 * vnl_vector and vnl_matrix: a matrix is a sequence of rows.
 */
module LinearAlgebra {

  type Vec = seq<real>
  type Matrix = seq<seq<real>>

  predicate IsMatrix(m: Matrix, rows: nat, cols: nat)
  {
    |m| == rows && forall i :: 0 <= i < rows ==> |m[i]| == cols
  }

  /** Inner product, summed from the first component to the last. */
  function Dot(u: Vec, v: Vec): real
    requires |u| == |v|
    decreases |u|
  {
    if |u| == 0 then 0.0 else Dot(u[..|u| - 1], v[..|v| - 1]) + u[|u| - 1] * v[|v| - 1]
  }

  /** Matrix times column vector. */
  function MatVec(m: Matrix, x: Vec): (y: Vec)
    requires forall i :: 0 <= i < |m| ==> |m[i]| == |x|
    ensures |y| == |m| && forall i :: 0 <= i < |m| ==> y[i] == Dot(m[i], x)
  {
    seq(|m|, i requires 0 <= i < |m| => Dot(m[i], x))
  }

  /** The transpose of a matrix with `cols` columns. */
  function Transpose(m: Matrix, cols: nat): (t: Matrix)
    requires IsMatrix(m, |m|, cols)
    ensures IsMatrix(t, cols, |m|)
    ensures forall k, j :: 0 <= k < cols && 0 <= j < |m| ==> t[k][j] == m[j][k]
  {
    seq(cols, k requires 0 <= k < cols => seq(|m|, j requires 0 <= j < |m| => m[j][k]))
  }

  function VAdd(u: Vec, v: Vec): (w: Vec)
    requires |u| == |v|
    ensures |w| == |u| && forall i :: 0 <= i < |u| ==> w[i] == u[i] + v[i]
  {
    seq(|u|, i requires 0 <= i < |u| => u[i] + v[i])
  }

  function VSub(u: Vec, v: Vec): (w: Vec)
    requires |u| == |v|
    ensures |w| == |u| && forall i :: 0 <= i < |u| ==> w[i] == u[i] - v[i]
  {
    seq(|u|, i requires 0 <= i < |u| => u[i] - v[i])
  }

  function VScale(c: real, u: Vec): (w: Vec)
    ensures |w| == |u| && forall i :: 0 <= i < |u| ==> w[i] == c * u[i]
  {
    seq(|u|, i requires 0 <= i < |u| => c * u[i])
  }

  /** The rows of `r` are pairwise orthogonal unit vectors (r times its transpose is the identity). */
  ghost predicate RowsOrthonormal(r: Matrix, n: nat)
  {
    IsMatrix(r, n, n) &&
    forall i, j :: 0 <= i < n && 0 <= j < n ==> Dot(r[i], r[j]) == if i == j then 1.0 else 0.0
  }

  lemma {:induction false} DotComm(u: Vec, v: Vec)
    requires |u| == |v|
    ensures Dot(u, v) == Dot(v, u)
    decreases |u|
  {
    if |u| > 0 { DotComm(u[..|u| - 1], v[..|v| - 1]); }
  }

  lemma {:induction false} DotZero(a: Vec, z: Vec)
    requires |a| == |z| && forall i :: 0 <= i < |z| ==> z[i] == 0.0
    ensures Dot(a, z) == 0.0
    decreases |a|
  {
    if |a| > 0 { DotZero(a[..|a| - 1], z[..|z| - 1]); }
  }

  /** The inner product with the `i`-th unit vector picks component `i`. */
  lemma {:induction false} DotUnit(x: Vec, e: Vec, i: nat)
    requires |x| == |e| && i < |x|
    requires forall j :: 0 <= j < |e| ==> e[j] == if j == i then 1.0 else 0.0
    ensures Dot(x, e) == x[i]
    decreases |x|
  {
    var n := |x| - 1;
    if i < n {
      DotUnit(x[..n], e[..n], i);
    } else {
      DotZero(x[..n], e[..n]);
    }
  }

  /** `v` is `p` plus `c` times `w`, component by component. */
  predicate IsAffine(v: Vec, p: Vec, c: real, w: Vec)
  {
    |v| == |p| == |w| && forall i :: 0 <= i < |v| ==> v[i] == p[i] + c * w[i]
  }

  /** The inner product distributes over a component-wise sum in its second argument. */
  lemma {:induction false} DotAdd(a: Vec, p: Vec, q: Vec, v: Vec)
    requires |a| == |p| == |q| == |v| && forall i :: 0 <= i < |v| ==> v[i] == p[i] + q[i]
    ensures Dot(a, v) == Dot(a, p) + Dot(a, q)
    decreases |a|
  {
    if |a| > 0 {
      var n := |a| - 1;
      DotAdd(a[..n], p[..n], q[..n], v[..n]);
      assert a[n] * v[n] == a[n] * p[n] + a[n] * q[n];
    }
  }

  lemma ScaleStep(dq: real, dw: real, a: real, q: real, c: real, w: real)
    requires dq == c * dw && q == c * w
    ensures dq + a * q == c * (dw + a * w)
  {
  }

  /** Scaling the second argument scales the inner product. */
  lemma {:induction false} DotScale(a: Vec, c: real, w: Vec, q: Vec)
    requires |a| == |w| == |q| && forall i :: 0 <= i < |q| ==> q[i] == c * w[i]
    ensures Dot(a, q) == c * Dot(a, w)
    decreases |a|
  {
    if |a| > 0 {
      var n := |a| - 1;
      DotScale(a[..n], c, w[..n], q[..n]);
      ScaleStep(Dot(a[..n], q[..n]), Dot(a[..n], w[..n]), a[n], q[n], c, w[n]);
    }
  }

  /** The inner product is linear in its second argument. */
  lemma DotAffine(a: Vec, v: Vec, p: Vec, c: real, w: Vec)
    requires |a| == |v| && IsAffine(v, p, c, w)
    ensures Dot(a, v) == Dot(a, p) + c * Dot(a, w)
  {
    var q := VScale(c, w);
    DotScale(a, c, w, q);
    DotAdd(a, p, q, v);
  }

  lemma DotAffineRow(a: Vec, v: Vec, p: Vec, b: Matrix, x: Vec)
    requires |x| == |b| > 0 && |a| == |v| && IsAffine(v, p, x[|x| - 1], b[|x| - 1])
    ensures Dot(a, v) == Dot(a, p) + x[|x| - 1] * Dot(a, b[|x| - 1])
  {
    DotAffine(a, v, p, x[|x| - 1], b[|x| - 1]);
  }

  /** Peeling the last row of `b` off its transpose-times-vector product. */
  lemma TransposeStep(b: Matrix, k: nat, x: Vec)
    requires IsMatrix(b, |x|, k) && |x| > 0
    ensures IsAffine(MatVec(Transpose(b, k), x), MatVec(Transpose(b[..|x| - 1], k), x[..|x| - 1]),
                     x[|x| - 1], b[|x| - 1])
  {
    var n := |x| - 1;
    var bt, bt' := Transpose(b, k), Transpose(b[..n], k);
    forall c | 0 <= c < k
      ensures MatVec(bt, x)[c] == MatVec(bt', x[..n])[c] + x[n] * b[n][c]
    {
      assert bt[c][..n] == bt'[c];
      assert Dot(bt[c], x) == Dot(bt'[c], x[..n]) + bt[c][n] * x[n];
    }
  }

  /** Left side of the adjoint identity, one row of `b` peeled off. */
  lemma AdjointLeftStep(b: Matrix, k: nat, a: Vec, x: Vec)
    requires IsMatrix(b, |x|, k) && |a| == k && |x| > 0
    ensures Dot(a, MatVec(Transpose(b, k), x)) ==
            Dot(a, MatVec(Transpose(b[..|x| - 1], k), x[..|x| - 1])) + x[|x| - 1] * Dot(a, b[|x| - 1])
  {
    TransposeStep(b, k, x);
    DotAffineRow(a, MatVec(Transpose(b, k), x), MatVec(Transpose(b[..|x| - 1], k), x[..|x| - 1]), b, x);
  }

  lemma DotLastRow(x: Vec, q: Vec, q': Vec, b: Matrix, a: Vec)
    requires |x| == |q| == |b| > 0 && |b[|x| - 1]| == |a|
    requires q[..|x| - 1] == q' && q[|x| - 1] == Dot(b[|x| - 1], a)
    ensures Dot(x, q) == Dot(x[..|x| - 1], q') + x[|x| - 1] * Dot(a, b[|x| - 1])
  {
    DotComm(a, b[|x| - 1]);
  }

  /** Right side of the adjoint identity, one row of `b` peeled off. */
  lemma AdjointRightStep(b: Matrix, k: nat, a: Vec, x: Vec)
    requires IsMatrix(b, |x|, k) && |a| == k && |x| > 0
    ensures Dot(x, MatVec(b, a)) ==
            Dot(x[..|x| - 1], MatVec(b[..|x| - 1], a)) + x[|x| - 1] * Dot(a, b[|x| - 1])
  {
    var q := MatVec(b, a);
    var q' := MatVec(b[..|x| - 1], a);
    assert q[..|x| - 1] == q';
    DotLastRow(x, q, q', b, a);
  }

  /** The transpose is the adjoint: a . (B^T x) == x . (B a). */
  lemma {:induction false} TransposeAdjoint(b: Matrix, k: nat, a: Vec, x: Vec)
    requires IsMatrix(b, |x|, k) && |a| == k
    ensures Dot(a, MatVec(Transpose(b, k), x)) == Dot(x, MatVec(b, a))
    decreases |x|
  {
    if |x| == 0 {
      DotZero(a, MatVec(Transpose(b, k), x));
    } else {
      var n := |x| - 1;
      TransposeAdjoint(b[..n], k, a, x[..n]);
      AdjointLeftStep(b, k, a, x);
      AdjointRightStep(b, k, a, x);
    }
  }

  /** Mapping a vector into a frame with orthonormal rows and back gives it unchanged. */
  lemma RotateBack(r: Matrix, n: nat, x: Vec)
    requires RowsOrthonormal(r, n) && |x| == n
    ensures MatVec(r, MatVec(Transpose(r, n), x)) == x
  {
    var y := MatVec(r, MatVec(Transpose(r, n), x));
    forall i | 0 <= i < n
      ensures y[i] == x[i]
    {
      TransposeAdjoint(r, n, r[i], x);
      var e := MatVec(r, r[i]);
      forall j | 0 <= j < n
        ensures e[j] == if j == i then 1.0 else 0.0
      {
        assert e[j] == Dot(r[j], r[i]);
      }
      DotUnit(x, e, i);
    }
  }
}
