/**
 * Operators that fill only the two transverse shear rows of the strain
 * ordering, and blends s*A + t*B of two such operators.  Everything here is
 * stated for arbitrary rows and matrices; the discrete shear gap operators
 * are instances.
 */
module ShearLayout {
  import opened LinearAlgebra
  import opened ShapeFunctions
  import opened Constitutive

  /**
   * An operator that fills only the transverse shear rows: six zero rows,
   * then `k` times `gxz` and `k` times `gyz`.
   */
  function ShearRows(k: real, gxz: Vector, gyz: Vector): (m: Matrix)
    requires |gxz| == |gyz|
    ensures IsMatrix(m, StrainCount, |gxz|) && Cols(m) == |gxz|
  {
    var z := Zeros(|gxz|);
    [z, z, z, z, z, z, VScale(k, gxz), VScale(k, gyz)]
  }

  /** Entry `col` of a shear-rows operator: zero in rows 0..5, `k` times the row's entry in rows 6 and 7. */
  lemma ShearRowsEntry(k: real, gxz: Vector, gyz: Vector, i: nat, col: nat)
    requires |gxz| == |gyz| && i < StrainCount && col < |gxz|
    ensures ShearRows(k, gxz, gyz)[i][col] == if i < 6 then 0.0 else k * (if i == 6 then gxz else gyz)[col]
  {
  }

  /** A column that both shear rows leave at zero is zero in the whole operator. */
  lemma ShearRowsZeroColumn(k: real, gxz: Vector, gyz: Vector, col: nat)
    requires |gxz| == |gyz| && col < |gxz| && gxz[col] == 0.0 && gyz[col] == 0.0
    ensures forall i :: 0 <= i < StrainCount ==> ShearRows(k, gxz, gyz)[i][col] == 0.0
  {
    forall i | 0 <= i < StrainCount ensures ShearRows(k, gxz, gyz)[i][col] == 0.0 {
      ShearRowsEntry(k, gxz, gyz, i, col);
    }
  }

  /** Shear rows that leave every u and v column at zero give an operator that does too. */
  lemma ShearRowsNoInPlane(k: real, gxz: Vector, gyz: Vector, nodes: nat)
    requires |gxz| == |gyz| == 5 * nodes
    requires forall n :: 0 <= n < nodes ==> gxz[DofIndex(n, Offset(U))] == 0.0 && gxz[DofIndex(n, Offset(V))] == 0.0
    requires forall n :: 0 <= n < nodes ==> gyz[DofIndex(n, Offset(U))] == 0.0 && gyz[DofIndex(n, Offset(V))] == 0.0
    ensures forall i, n :: 0 <= i < StrainCount && 0 <= n < nodes ==>
              ShearRows(k, gxz, gyz)[i][DofIndex(n, Offset(U))] == 0.0 &&
              ShearRows(k, gxz, gyz)[i][DofIndex(n, Offset(V))] == 0.0
  {
    forall i, n | 0 <= i < StrainCount && 0 <= n < nodes
      ensures ShearRows(k, gxz, gyz)[i][DofIndex(n, Offset(U))] == 0.0
      ensures ShearRows(k, gxz, gyz)[i][DofIndex(n, Offset(V))] == 0.0
    {
      ShearRowsEntry(k, gxz, gyz, i, DofIndex(n, Offset(U)));
      ShearRowsEntry(k, gxz, gyz, i, DofIndex(n, Offset(V)));
    }
  }

  /** Shear rows holding `w` at (gxz, 3) and (gyz, 4) and zero at the crossed pairs, scaled by `k`. */
  lemma DiagonalPairs(k: real, gxz: Vector, gyz: Vector, w: real, kw: real)
    requires |gxz| == |gyz| && 4 < |gxz| && k * w == kw
    requires gxz[3] == w && gyz[4] == w && gxz[4] == 0.0 && gyz[3] == 0.0
    ensures ShearRows(k, gxz, gyz)[6][3] == kw && ShearRows(k, gxz, gyz)[7][4] == kw
    ensures ShearRows(k, gxz, gyz)[6][4] == 0.0 && ShearRows(k, gxz, gyz)[7][3] == 0.0
  {
  }

  /** An entry of a blend s*A + t*B of two matrices of one shape. */
  lemma BlendEntry(s: real, a: Matrix, t: real, b: Matrix, i: nat, j: nat)
    requires Rect(a) && IsMatrix(b, |a|, Cols(a)) && i < |a| && j < Cols(a)
    ensures Add(Scale(s, a), Scale(t, b))[i][j] == s * a[i][j] + t * b[i][j]
  {
  }

  /** The weights one and zero pick the first matrix out of a blend. */
  lemma BlendPicksFirst(a: Matrix, b: Matrix)
    requires Rect(a) && IsMatrix(b, |a|, Cols(a))
    ensures Add(Scale(1.0, a), Scale(0.0, b)) == a
  {
    var m := Add(Scale(1.0, a), Scale(0.0, b));
    forall i | 0 <= i < |a| ensures m[i] == a[i] {
      forall j | 0 <= j < Cols(a) ensures m[i][j] == a[i][j] {
        BlendEntry(1.0, a, 0.0, b, i, j);
      }
    }
  }

  /** The weights zero and one pick the second matrix out of a blend. */
  lemma BlendPicksSecond(a: Matrix, b: Matrix)
    requires Rect(a) && IsMatrix(b, |a|, Cols(a))
    ensures Add(Scale(0.0, a), Scale(1.0, b)) == b
  {
    var m := Add(Scale(0.0, a), Scale(1.0, b));
    forall i | 0 <= i < |a| ensures m[i] == b[i] {
      forall j | 0 <= j < Cols(a) ensures m[i][j] == b[i][j] {
        BlendEntry(0.0, a, 1.0, b, i, j);
      }
    }
  }

  /** A blend is zero wherever both of its parts are. */
  lemma BlendZeroEntry(s: real, a: Matrix, t: real, b: Matrix, i: nat, j: nat)
    requires Rect(a) && IsMatrix(b, |a|, Cols(a)) && i < |a| && j < Cols(a)
    requires a[i][j] == 0.0 && b[i][j] == 0.0
    ensures Add(Scale(s, a), Scale(t, b))[i][j] == 0.0
  {
    BlendEntry(s, a, t, b, i, j);
  }

  /**
   * The pattern every DSG operator of a cell has: an 8x20 matrix whose rows
   * 0..5 are zero and whose u and v columns are zero.
   */
  predicate ShearPattern(m: Matrix) {
    IsMatrix(m, StrainCount, DofCount) && Cols(m) == DofCount &&
    (forall i, col :: 0 <= i < 6 && 0 <= col < DofCount ==> m[i][col] == 0.0) &&
    (forall i, j :: 0 <= i < StrainCount && 0 <= j < NodeCount ==>
       m[i][DofIndex(j, Offset(U))] == 0.0 && m[i][DofIndex(j, Offset(V))] == 0.0)
  }

  /** A blend of two matrices with the shear pattern has it too. */
  lemma BlendKeepsPattern(s: real, a: Matrix, t: real, b: Matrix)
    requires ShearPattern(a) && ShearPattern(b)
    ensures ShearPattern(Add(Scale(s, a), Scale(t, b)))
  {
    var m := Add(Scale(s, a), Scale(t, b));
    forall i, col | 0 <= i < 6 && 0 <= col < DofCount ensures m[i][col] == 0.0 {
      BlendZeroEntry(s, a, t, b, i, col);
    }
    forall i, j | 0 <= i < StrainCount && 0 <= j < NodeCount
      ensures m[i][DofIndex(j, Offset(U))] == 0.0 && m[i][DofIndex(j, Offset(V))] == 0.0
    {
      BlendZeroEntry(s, a, t, b, i, DofIndex(j, Offset(U)));
      BlendZeroEntry(s, a, t, b, i, DofIndex(j, Offset(V)));
    }
  }
}
