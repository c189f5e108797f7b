/**
 * Exact dense matrices over the reals, stored row-major as sequences of rows.
 *
 * The derivation builds every operator and stiffness matrix from four
 * operations on symbolic matrices: transpose, product, sum and multiplication
 * by a scalar.  Dafny's `real` is exact, so a symbolic entry becomes a `real`
 * expression over the parameters it mentions.  Shapes are part of the
 * preconditions: an operation applied to operands of mismatched shape is a
 * caller error and cannot be written.
 */
module LinearAlgebra {

  type Vector = seq<real>
  type Matrix = seq<seq<real>>

  /** `m` has `r` rows of `c` entries each. */
  predicate IsMatrix(m: Matrix, r: nat, c: nat) {
    |m| == r && forall i :: 0 <= i < r ==> |m[i]| == c
  }

  /** The number of columns, read off the first row. */
  function Cols(m: Matrix): nat {
    if |m| == 0 then 0 else |m[0]|
  }

  /** All rows of `m` have the same length. */
  predicate Rect(m: Matrix) {
    IsMatrix(m, |m|, Cols(m))
  }

  /** Square and equal to its own transpose, entry by entry. */
  predicate Symmetric(m: Matrix) {
    IsMatrix(m, |m|, |m|) && forall i, j :: 0 <= i < |m| && 0 <= j < |m| ==> m[i][j] == m[j][i]
  }

  /** Every entry of `m` is zero. */
  predicate IsZero(m: Matrix) {
    forall i, j :: 0 <= i < |m| && 0 <= j < |m[i]| ==> m[i][j] == 0.0
  }

  /** In the square matrix `k`, row `j` and column `j` are zero: degree of freedom `j` takes no part. */
  predicate ZeroDof(k: Matrix, j: nat) {
    IsMatrix(k, |k|, |k|) && j < |k| && forall i :: 0 <= i < |k| ==> k[i][j] == 0.0 && k[j][i] == 0.0
  }

  // ---------------------------------------------------------------- vectors

  function Zeros(n: nat): (z: Vector)
    ensures |z| == n && forall k :: 0 <= k < n ==> z[k] == 0.0
  {
    seq(n, _ => 0.0)
  }

  /** The entrywise sum of two rows. */
  function VAdd(u: Vector, v: Vector): (w: Vector)
    requires |u| == |v|
    ensures |w| == |u| && forall k :: 0 <= k < |u| ==> w[k] == u[k] + v[k]
  {
    seq(|u|, k requires 0 <= k < |u| => u[k] + v[k])
  }

  /** A row times a scalar. */
  function VScale(a: real, u: Vector): (w: Vector)
    ensures |w| == |u| && forall k :: 0 <= k < |u| ==> w[k] == a * u[k]
  {
    seq(|u|, k requires 0 <= k < |u| => a * u[k])
  }

  /** The inner product, summed from the first entry to the last. */
  function Dot(u: Vector, v: Vector): (r: real)
    requires |u| == |v|
    ensures |u| == 0 ==> r == 0.0
    decreases |u|
  {
    if |u| == 0 then 0.0 else u[0] * v[0] + Dot(u[1..], v[1..])
  }

  // --------------------------------------------------------------- matrices

  function ZeroMatrix(r: nat, c: nat): (z: Matrix)
    ensures IsMatrix(z, r, c) && IsZero(z)
  {
    seq(r, _ => Zeros(c))
  }

  function Add(a: Matrix, b: Matrix): (s: Matrix)
    requires Rect(a) && IsMatrix(b, |a|, Cols(a))
    ensures IsMatrix(s, |a|, Cols(a)) && Cols(s) == Cols(a)
    ensures forall i, j :: 0 <= i < |a| && 0 <= j < Cols(a) ==> s[i][j] == a[i][j] + b[i][j]
  {
    seq(|a|, i requires 0 <= i < |a| => VAdd(a[i], b[i]))
  }

  function Scale(k: real, a: Matrix): (s: Matrix)
    requires Rect(a)
    ensures IsMatrix(s, |a|, Cols(a)) && Cols(s) == Cols(a)
    ensures forall i, j :: 0 <= i < |a| && 0 <= j < Cols(a) ==> s[i][j] == k * a[i][j]
  {
    seq(|a|, i requires 0 <= i < |a| => VScale(k, a[i]))
  }

  /** Column `j` of `m`, as a vector. */
  function Column(m: Matrix, j: nat): (col: Vector)
    requires forall i :: 0 <= i < |m| ==> j < |m[i]|
    ensures |col| == |m| && forall i :: 0 <= i < |m| ==> col[i] == m[i][j]
  {
    seq(|m|, i requires 0 <= i < |m| => m[i][j])
  }

  function Transpose(m: Matrix): (t: Matrix)
    requires Rect(m)
    ensures IsMatrix(t, Cols(m), |m|)
    ensures forall j, i :: 0 <= j < Cols(m) && 0 <= i < |m| ==> t[j][i] == m[i][j]
  {
    seq(Cols(m), j requires 0 <= j < Cols(m) => Column(m, j))
  }

  /** The row vector `x` times the matrix `b` of `m` columns. */
  function RowTimes(x: Vector, b: Matrix, m: nat): (r: Vector)
    requires IsMatrix(b, |x|, m)
    ensures |r| == m
  {
    seq(m, j requires 0 <= j < m => Dot(x, Column(b, j)))
  }

  /** The matrix `b` times the column vector `y`. */
  function TimesColumn(b: Matrix, y: Vector): (r: Vector)
    requires IsMatrix(b, |b|, |y|)
    ensures |r| == |b| && forall k :: 0 <= k < |b| ==> r[k] == Dot(b[k], y)
  {
    seq(|b|, k requires 0 <= k < |b| => Dot(b[k], y))
  }

  /** The matrix product, entry (i, j) being row i of `a` against column j of `b`. */
  function Mul(a: Matrix, b: Matrix): (p: Matrix)
    requires Rect(a) && Rect(b) && Cols(a) == |b|
    ensures IsMatrix(p, |a|, Cols(b))
    ensures |a| > 0 ==> Cols(p) == Cols(b)
  {
    seq(|a|, i requires 0 <= i < |a| => RowTimes(a[i], b, Cols(b)))
  }

  /** Shape conditions under which `Triple(x, m, y)` is defined. */
  predicate TripleShapes(x: Matrix, m: Matrix, y: Matrix) {
    && Rect(x) && Rect(m) && Rect(y)
    && |x| > 0 && Cols(x) > 0 && |m| == |x| && Cols(m) > 0 && Cols(m) == |y| && Cols(y) > 0
  }

  /** The bilinear product `xᵀ·m·y`, evaluated left to right as `(xᵀ·m)·y`. */
  function Triple(x: Matrix, m: Matrix, y: Matrix): (t: Matrix)
    requires TripleShapes(x, m, y)
    ensures IsMatrix(t, Cols(x), Cols(y)) && Rect(t) && Cols(t) == Cols(y)
  {
    Mul(Mul(Transpose(x), m), y)
  }

  // ------------------------------------------------------ lemmas on vectors

  lemma {:induction false} DotCommutes(u: Vector, v: Vector)
    requires |u| == |v|
    ensures Dot(u, v) == Dot(v, u)
    decreases |u|
  {
    if |u| > 0 {
      DotCommutes(u[1..], v[1..]);
    }
  }

  lemma {:induction false} DotZeroLeft(u: Vector, v: Vector)
    requires |u| == |v| && forall k :: 0 <= k < |u| ==> u[k] == 0.0
    ensures Dot(u, v) == 0.0
    decreases |u|
  {
    if |u| > 0 {
      DotZeroLeft(u[1..], v[1..]);
    }
  }

  lemma DotZeroRight(u: Vector, v: Vector)
    requires |u| == |v| && forall k :: 0 <= k < |v| ==> v[k] == 0.0
    ensures Dot(u, v) == 0.0
  {
    DotCommutes(u, v);
    DotZeroLeft(v, u);
  }

  lemma {:induction false} DotAddLeft(u: Vector, v: Vector, w: Vector)
    requires |u| == |v| == |w|
    ensures Dot(VAdd(u, v), w) == Dot(u, w) + Dot(v, w)
    decreases |u|
  {
    if |u| > 0 {
      assert VAdd(u, v)[1..] == VAdd(u[1..], v[1..]);
      DotAddLeft(u[1..], v[1..], w[1..]);
    }
  }

  lemma {:induction false} DotScaleLeft(a: real, u: Vector, w: Vector)
    requires |u| == |w|
    ensures Dot(VScale(a, u), w) == a * Dot(u, w)
    decreases |u|
  {
    if |u| > 0 {
      var tail := VScale(a, u[1..]);
      forall k | 0 <= k < |tail| ensures VScale(a, u)[1..][k] == tail[k] {
        assert VScale(a, u)[k + 1] == a * u[k + 1];
      }
      assert VScale(a, u)[1..] == tail;
      DotScaleLeft(a, u[1..], w[1..]);
    }
  }

  /** `x·b` is the first row of `b` scaled by `x[0]` plus the rest of `x` times the rest of `b`. */
  lemma RowTimesStep(x: Vector, b: Matrix, m: nat)
    requires IsMatrix(b, |x|, m) && |x| > 0
    ensures RowTimes(x, b, m) == VAdd(VScale(x[0], b[0]), RowTimes(x[1..], b[1..], m))
  {
    var rest := RowTimes(x[1..], b[1..], m);
    forall j | 0 <= j < m
      ensures RowTimes(x, b, m)[j] == VAdd(VScale(x[0], b[0]), rest)[j]
    {
      assert Column(b, j)[1..] == Column(b[1..], j);
    }
  }

  /** `(x·b)·y == x·(b·y)`: the one fact behind associativity of the product. */
  lemma {:induction false} DotRowTimes(x: Vector, b: Matrix, m: nat, y: Vector)
    requires IsMatrix(b, |x|, m) && |y| == m
    ensures Dot(RowTimes(x, b, m), y) == Dot(x, TimesColumn(b, y))
    decreases |x|
  {
    if |x| == 0 {
      DotZeroLeft(RowTimes(x, b, m), y);
    } else {
      var rest := RowTimes(x[1..], b[1..], m);
      RowTimesStep(x, b, m);
      DotAddLeft(VScale(x[0], b[0]), rest, y);
      DotScaleLeft(x[0], b[0], y);
      DotRowTimes(x[1..], b[1..], m, y);
      assert TimesColumn(b, y)[1..] == TimesColumn(b[1..], y);
    }
  }

  // ----------------------------------------------------- lemmas on matrices

  lemma TransposeTwice(m: Matrix)
    requires Rect(m) && |m| > 0 && Cols(m) > 0
    ensures Transpose(Transpose(m)) == m
  {
    var t := Transpose(m);
    assert Cols(t) == |m|;
    forall i | 0 <= i < |m| ensures Transpose(t)[i] == m[i] {
    }
  }

  /** Column `j` of a product is the left factor times column `j` of the right one. */
  lemma ColumnOfProduct(b: Matrix, c: Matrix, l: nat)
    requires Rect(b) && Rect(c) && Cols(b) == |c| && |b| > 0 && l < Cols(c)
    ensures Column(Mul(b, c), l) == TimesColumn(b, Column(c, l))
  {
  }

  /** The product is associative. */
  lemma MulAssociative(a: Matrix, b: Matrix, c: Matrix)
    requires Rect(a) && Rect(b) && Rect(c) && Cols(a) == |b| && Cols(b) == |c|
    requires |a| > 0 && |b| > 0
    ensures Mul(Mul(a, b), c) == Mul(a, Mul(b, c))
  {
    var left, right := Mul(Mul(a, b), c), Mul(a, Mul(b, c));
    forall i | 0 <= i < |a| ensures left[i] == right[i] {
      forall l | 0 <= l < Cols(c) ensures left[i][l] == right[i][l] {
        ColumnOfProduct(b, c, l);
        DotRowTimes(a[i], b, Cols(b), Column(c, l));
      }
    }
  }

  /** `(a·b)ᵀ == bᵀ·aᵀ`. */
  lemma TransposeOfProduct(a: Matrix, b: Matrix)
    requires Rect(a) && Rect(b) && Cols(a) == |b| && |a| > 0 && |b| > 0 && Cols(b) > 0
    ensures Transpose(Mul(a, b)) == Mul(Transpose(b), Transpose(a))
  {
    var left, right := Transpose(Mul(a, b)), Mul(Transpose(b), Transpose(a));
    forall j | 0 <= j < Cols(b) ensures left[j] == right[j] {
      forall i | 0 <= i < |a| ensures left[j][i] == right[j][i] {
        assert Column(Transpose(a), i) == a[i];
        DotCommutes(a[i], Column(b, j));
      }
    }
  }

  lemma SymmetricIsOwnTranspose(m: Matrix)
    requires Symmetric(m) && |m| > 0
    ensures Transpose(m) == m
  {
    forall i | 0 <= i < |m| ensures Transpose(m)[i] == m[i] {
    }
  }

  /** `(xᵀ·m·y)ᵀ == yᵀ·mᵀ·x`. */
  lemma TransposeOfTriple(x: Matrix, m: Matrix, y: Matrix)
    requires TripleShapes(x, m, y)
    ensures TripleShapes(y, Transpose(m), x)
    ensures Transpose(Triple(x, m, y)) == Triple(y, Transpose(m), x)
  {
    var xt := Transpose(x);
    var p := Mul(xt, m);
    TransposeOfProduct(p, y);
    TransposeOfProduct(xt, m);
    TransposeTwice(x);
    MulAssociative(Transpose(y), Transpose(m), x);
  }

  /** With a symmetric middle factor the two cross terms are each other's transposes. */
  lemma CrossTermsTranspose(x: Matrix, m: Matrix, y: Matrix)
    requires TripleShapes(x, m, y) && Symmetric(m)
    ensures TripleShapes(y, m, x)
    ensures Transpose(Triple(x, m, y)) == Triple(y, m, x)
  {
    TransposeOfTriple(x, m, y);
    SymmetricIsOwnTranspose(m);
  }

  /** `xᵀ·m·x` is symmetric whenever `m` is. */
  lemma QuadraticFormSymmetric(x: Matrix, m: Matrix)
    requires TripleShapes(x, m, x) && Symmetric(m)
    ensures Symmetric(Triple(x, m, x))
  {
    var t := Triple(x, m, x);
    CrossTermsTranspose(x, m, x);
    forall i, j | 0 <= i < |t| && 0 <= j < |t| ensures t[i][j] == t[j][i] {
      assert Transpose(t)[j][i] == t[i][j];
    }
  }

  /** A multiple of a symmetric matrix is symmetric. */
  lemma ScaleSymmetric(k: real, m: Matrix)
    requires Symmetric(m)
    ensures Symmetric(Scale(k, m))
  {
  }

  /**
   * `t1 + t2 + t3 + t4`, added left to right, is symmetric when `t1` and
   * `t4` are symmetric and `t3` is the transpose of `t2`.
   */
  lemma SymmetricSum(t1: Matrix, t2: Matrix, t3: Matrix, t4: Matrix)
    requires Symmetric(t1) && IsMatrix(t2, |t1|, |t1|) && IsMatrix(t3, |t1|, |t1|) && Symmetric(t4) && |t4| == |t1|
    requires Transpose(t2) == t3
    ensures Symmetric(Add(Add(Add(t1, t2), t3), t4))
  {
    var n := |t1|;
    var s := Add(Add(Add(t1, t2), t3), t4);
    forall i, j | 0 <= i < n && 0 <= j < n ensures s[i][j] == s[j][i] {
      assert t3[i][j] == t2[j][i] && t3[j][i] == t2[i][j];
    }
  }

  /** If column `i` of `x` is zero, row `i` of `xᵀ·m·y` is zero. */
  lemma TripleZeroRow(x: Matrix, m: Matrix, y: Matrix, i: nat)
    requires TripleShapes(x, m, y) && i < Cols(x)
    requires forall k :: 0 <= k < |x| ==> x[k][i] == 0.0
    ensures forall j :: 0 <= j < Cols(y) ==> Triple(x, m, y)[i][j] == 0.0
  {
    var p := Mul(Transpose(x), m);
    forall l | 0 <= l < Cols(m) ensures p[i][l] == 0.0 {
      DotZeroLeft(Transpose(x)[i], Column(m, l));
    }
    forall j | 0 <= j < Cols(y) ensures Triple(x, m, y)[i][j] == 0.0 {
      DotZeroLeft(p[i], Column(y, j));
    }
  }

  /** If column `j` of `y` is zero, column `j` of `xᵀ·m·y` is zero. */
  lemma TripleZeroColumn(x: Matrix, m: Matrix, y: Matrix, j: nat)
    requires TripleShapes(x, m, y) && j < Cols(y)
    requires forall k :: 0 <= k < |y| ==> y[k][j] == 0.0
    ensures forall i :: 0 <= i < Cols(x) ==> Triple(x, m, y)[i][j] == 0.0
  {
    var p := Mul(Transpose(x), m);
    forall i | 0 <= i < Cols(x) ensures Triple(x, m, y)[i][j] == 0.0 {
      DotZeroRight(p[i], Column(y, j));
    }
  }

  /** A zero middle factor makes `xᵀ·m·y` the zero matrix. */
  lemma TripleZeroMiddle(x: Matrix, m: Matrix, y: Matrix)
    requires TripleShapes(x, m, y) && IsZero(m)
    ensures Triple(x, m, y) == ZeroMatrix(Cols(x), Cols(y))
  {
    var p := Mul(Transpose(x), m);
    forall i, l | 0 <= i < Cols(x) && 0 <= l < Cols(m) ensures p[i][l] == 0.0 {
      DotZeroRight(Transpose(x)[i], Column(m, l));
    }
    var t, z := Triple(x, m, y), ZeroMatrix(Cols(x), Cols(y));
    forall i | 0 <= i < Cols(x) ensures t[i] == z[i] {
      forall j | 0 <= j < Cols(y) ensures t[i][j] == 0.0 {
        DotZeroLeft(p[i], Column(y, j));
      }
    }
  }
}
