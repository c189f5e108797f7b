/**
 * Stiffness matrices of a smoothing cell.
 *
 * The membrane-bending stiffness is the cell area times the sum of the four
 * laminate forms Bmᵀ·A·Bm + Bmᵀ·B·Bb + Bbᵀ·B·Bm + Bbᵀ·D·Bb, added left to
 * right.  The transverse shear stiffness of one triangle is Bsᵀ·E·Bs; the
 * shear stiffness of a cell built from two triangles is Bskᵀ·E·Bsk, with Bsk
 * the area-weighted blend of the two triangles' operators.
 */
module Stiffness {
  import opened LinearAlgebra
  import opened ShapeFunctions
  import opened Constitutive
  import opened Smoothing
  import opened ShearGap
  import opened ShearGapProperties

  /** The four constitutive blocks of a laminate. */
  datatype Laminate = Laminate(a: InPlane, b: InPlane, d: InPlane, e: TransverseShear)

  // ------------------------------------------------- the laminate form in general

  /** Shapes under which the laminate form of two strain operators is defined. */
  predicate FormShapes(bm: Matrix, bb: Matrix, a: Matrix, b: Matrix, d: Matrix) {
    && Rect(bm) && Rect(bb) && |bm| > 0 && |bb| == |bm| && Cols(bm) > 0 && Cols(bb) == Cols(bm)
    && IsMatrix(a, |bm|, |bm|) && IsMatrix(b, |bm|, |bm|) && IsMatrix(d, |bm|, |bm|)
  }

  /** `bmᵀ·a·bm + bmᵀ·b·bb + bbᵀ·b·bm + bbᵀ·d·bb`, the sum taken left to right. */
  function FormSum(bm: Matrix, bb: Matrix, a: Matrix, b: Matrix, d: Matrix): (s: Matrix)
    requires FormShapes(bm, bb, a, b, d)
    ensures IsMatrix(s, Cols(bm), Cols(bm)) && Cols(s) == Cols(bm)
  {
    Add(Add(Add(Triple(bm, a, bm), Triple(bm, b, bb)), Triple(bb, b, bm)), Triple(bb, d, bb))
  }

  /** The laminate form: the area `ac` times the sum of the four forms. */
  function LaminateForm(ac: real, bm: Matrix, bb: Matrix, a: Matrix, b: Matrix, d: Matrix): (k: Matrix)
    requires FormShapes(bm, bb, a, b, d)
    ensures IsMatrix(k, Cols(bm), Cols(bm)) && Cols(k) == Cols(bm)
    ensures forall i, j :: 0 <= i < Cols(bm) && 0 <= j < Cols(bm) ==> k[i][j] == ac * FormSum(bm, bb, a, b, d)[i][j]
  {
    Scale(ac, FormSum(bm, bb, a, b, d))
  }

  /** Entry (i, j) of the sum of the four forms. */
  lemma FormSumEntry(bm: Matrix, bb: Matrix, a: Matrix, b: Matrix, d: Matrix, i: nat, j: nat)
    requires FormShapes(bm, bb, a, b, d) && i < Cols(bm) && j < Cols(bm)
    ensures FormSum(bm, bb, a, b, d)[i][j]
         == ((Triple(bm, a, bm)[i][j] + Triple(bm, b, bb)[i][j]) + Triple(bb, b, bm)[i][j]) + Triple(bb, d, bb)[i][j]
  {
  }

  /**
   * With symmetric constitutive blocks the sum of the four forms is
   * symmetric: the two diagonal forms are symmetric and the two coupling
   * forms are each other's transposes.
   */
  lemma FormSumSymmetric(bm: Matrix, bb: Matrix, a: Matrix, b: Matrix, d: Matrix)
    requires FormShapes(bm, bb, a, b, d) && Symmetric(a) && Symmetric(b) && Symmetric(d)
    ensures Symmetric(FormSum(bm, bb, a, b, d))
  {
    QuadraticFormSymmetric(bm, a);
    QuadraticFormSymmetric(bb, d);
    CrossTermsTranspose(bm, b, bb);
    SymmetricSum(Triple(bm, a, bm), Triple(bm, b, bb), Triple(bb, b, bm), Triple(bb, d, bb));
  }

  /** The laminate form is symmetric whenever its constitutive blocks are. */
  lemma LaminateFormSymmetric(ac: real, bm: Matrix, bb: Matrix, a: Matrix, b: Matrix, d: Matrix)
    requires FormShapes(bm, bb, a, b, d) && Symmetric(a) && Symmetric(b) && Symmetric(d)
    ensures Symmetric(LaminateForm(ac, bm, bb, a, b, d))
  {
    FormSumSymmetric(bm, bb, a, b, d);
    ScaleSymmetric(ac, FormSum(bm, bb, a, b, d));
  }

  /** A degree of freedom that neither operator reads has a zero row and a zero column in the form. */
  lemma LaminateFormZeroDof(ac: real, bm: Matrix, bb: Matrix, a: Matrix, b: Matrix, d: Matrix, j: nat)
    requires FormShapes(bm, bb, a, b, d) && j < Cols(bm)
    requires forall r :: 0 <= r < |bm| ==> bm[r][j] == 0.0 && bb[r][j] == 0.0
    ensures ZeroDof(LaminateForm(ac, bm, bb, a, b, d), j)
  {
    TripleZeroColumn(bm, a, bm, j);
    TripleZeroColumn(bm, b, bb, j);
    TripleZeroColumn(bb, b, bm, j);
    TripleZeroColumn(bb, d, bb, j);
    TripleZeroRow(bm, a, bm, j);
    TripleZeroRow(bm, b, bb, j);
    TripleZeroRow(bb, b, bm, j);
    TripleZeroRow(bb, d, bb, j);
    forall i | 0 <= i < Cols(bm)
      ensures FormSum(bm, bb, a, b, d)[i][j] == 0.0 && FormSum(bm, bb, a, b, d)[j][i] == 0.0
    {
      FormSumEntry(bm, bb, a, b, d, i, j);
      FormSumEntry(bm, bb, a, b, d, j, i);
    }
  }

  /** Without coupling (b zero) only the two diagonal forms remain in the sum. */
  lemma FormSumUncoupled(bm: Matrix, bb: Matrix, a: Matrix, b: Matrix, d: Matrix)
    requires FormShapes(bm, bb, a, b, d) && IsZero(b)
    ensures FormSum(bm, bb, a, b, d) == Add(Triple(bm, a, bm), Triple(bb, d, bb))
  {
    TripleZeroMiddle(bm, b, bb);
    TripleZeroMiddle(bb, b, bm);
    var s, t := FormSum(bm, bb, a, b, d), Add(Triple(bm, a, bm), Triple(bb, d, bb));
    forall i | 0 <= i < Cols(bm) ensures s[i] == t[i] {
      forall j | 0 <= j < Cols(bm) ensures s[i][j] == t[i][j] {
        FormSumEntry(bm, bb, a, b, d, i, j);
      }
    }
  }

  /**
   * Without coupling, a degree of freedom `i` that `bb` does not read and a
   * degree of freedom `j` that `bm` does not read do not interact: entries
   * (i, j) and (j, i) of the form are zero.
   */
  lemma LaminateFormDecoupled(ac: real, bm: Matrix, bb: Matrix, a: Matrix, b: Matrix, d: Matrix, i: nat, j: nat)
    requires FormShapes(bm, bb, a, b, d) && IsZero(b) && i < Cols(bm) && j < Cols(bm)
    requires forall r :: 0 <= r < |bb| ==> bb[r][i] == 0.0
    requires forall r :: 0 <= r < |bm| ==> bm[r][j] == 0.0
    ensures LaminateForm(ac, bm, bb, a, b, d)[i][j] == 0.0 && LaminateForm(ac, bm, bb, a, b, d)[j][i] == 0.0
  {
    FormSumUncoupled(bm, bb, a, b, d);
    var t1, t4 := Triple(bm, a, bm), Triple(bb, d, bb);
    TripleZeroColumn(bm, a, bm, j);
    TripleZeroRow(bm, a, bm, j);
    TripleZeroRow(bb, d, bb, i);
    TripleZeroColumn(bb, d, bb, i);
    assert Add(t1, t4)[i][j] == 0.0 && Add(t1, t4)[j][i] == 0.0;
  }

  /** A column that `x` leaves at zero gives `xᵀ·m·x` a zero row and a zero column. */
  lemma QuadraticFormZeroDof(x: Matrix, m: Matrix, j: nat)
    requires TripleShapes(x, m, x) && j < Cols(x)
    requires forall r :: 0 <= r < |x| ==> x[r][j] == 0.0
    ensures ZeroDof(Triple(x, m, x), j)
  {
    TripleZeroColumn(x, m, x, j);
    TripleZeroRow(x, m, x, j);
  }

  // ------------------------------------------------ membrane-bending stiffness

  /** The membrane-bending stiffness of a smoothing cell (20x20). */
  function MembraneBendingK(c: Cell, lam: Laminate): (k: Matrix)
    requires c.ac != 0.0
    ensures IsMatrix(k, DofCount, DofCount) && Cols(k) == DofCount
  {
    LaminateForm(c.ac, Bm(c), Bb(c), AMatrix(lam.a), BMatrix(lam.b), DMatrix(lam.d))
  }

  lemma CellFormShapes(c: Cell, lam: Laminate)
    requires c.ac != 0.0
    ensures FormShapes(Bm(c), Bb(c), AMatrix(lam.a), BMatrix(lam.b), DMatrix(lam.d))
  {
  }

  /** The membrane-bending stiffness is symmetric. */
  lemma MembraneBendingKSymmetric(c: Cell, lam: Laminate)
    requires c.ac != 0.0
    ensures Symmetric(MembraneBendingK(c, lam))
  {
    CellFormShapes(c, lam);
    LaminateFormSymmetric(c.ac, Bm(c), Bb(c), AMatrix(lam.a), BMatrix(lam.b), DMatrix(lam.d));
  }

  /**
   * The transverse displacement w takes no part in membrane-bending: the
   * row and the column of every node's w are zero.
   */
  lemma MembraneBendingKNoTransverse(c: Cell, lam: Laminate)
    requires c.ac != 0.0
    ensures forall n :: 0 <= n < NodeCount ==> ZeroDof(MembraneBendingK(c, lam), DofIndex(n, Offset(W)))
  {
    CellFormShapes(c, lam);
    BmColumns(c);
    BbColumns(c);
    forall n | 0 <= n < NodeCount ensures ZeroDof(MembraneBendingK(c, lam), DofIndex(n, Offset(W))) {
      LaminateFormZeroDof(c.ac, Bm(c), Bb(c), AMatrix(lam.a), BMatrix(lam.b), DMatrix(lam.d), DofIndex(n, Offset(W)));
    }
  }

  /** With an uncoupled laminate (every B entry zero) the stiffness is Ac*(Bmᵀ·A·Bm + Bbᵀ·D·Bb). */
  lemma MembraneBendingKUncoupled(c: Cell, lam: Laminate)
    requires c.ac != 0.0 && Vanishes(lam.b)
    ensures MembraneBendingK(c, lam)
            == Scale(c.ac, Add(Triple(Bm(c), AMatrix(lam.a), Bm(c)), Triple(Bb(c), DMatrix(lam.d), Bb(c))))
  {
    CellFormShapes(c, lam);
    UncoupledBIsZero(lam.b);
    FormSumUncoupled(Bm(c), Bb(c), AMatrix(lam.a), BMatrix(lam.b), DMatrix(lam.d));
  }

  /**
   * With an uncoupled laminate the in-plane displacements (u, v) and the
   * rotations (phix, phiy) do not interact: every entry pairing one of node
   * n's in-plane freedoms with one of node m's rotations is zero.
   */
  lemma MembraneBendingKDecoupled(c: Cell, lam: Laminate, n: nat, p: Family, m: nat, q: Family)
    requires c.ac != 0.0 && Vanishes(lam.b) && n < NodeCount && m < NodeCount
    requires (p == U || p == V) && (q == PhiX || q == PhiY)
    ensures MembraneBendingK(c, lam)[DofIndex(n, Offset(p))][DofIndex(m, Offset(q))] == 0.0
    ensures MembraneBendingK(c, lam)[DofIndex(m, Offset(q))][DofIndex(n, Offset(p))] == 0.0
  {
    CellFormShapes(c, lam);
    UncoupledBIsZero(lam.b);
    BmColumns(c);
    BbColumns(c);
    LaminateFormDecoupled(c.ac, Bm(c), Bb(c), AMatrix(lam.a), BMatrix(lam.b), DMatrix(lam.d),
                          DofIndex(n, Offset(p)), DofIndex(m, Offset(q)));
  }

  // ----------------------------------------------------- transverse shear stiffness

  /** The transverse shear stiffness of one triangle, Bsᵀ·E·Bs (15x15). */
  function ShearK(g: Dsg, e: TransverseShear): (k: Matrix)
    requires g.ae != 0.0
    ensures IsMatrix(k, 15, 15) && Cols(k) == 15
  {
    Triple(Bs(g), EMatrix(e), Bs(g))
  }

  /** The triangle's shear stiffness is symmetric. */
  lemma ShearKSymmetric(g: Dsg, e: TransverseShear)
    requires g.ae != 0.0
    ensures Symmetric(ShearK(g, e))
  {
    QuadraticFormSymmetric(Bs(g), EMatrix(e));
  }

  /** The in-plane displacements take no part in transverse shear: their rows and columns are zero. */
  lemma ShearKNoInPlane(g: Dsg, e: TransverseShear)
    requires g.ae != 0.0
    ensures forall n :: 0 <= n < 3 ==>
              ZeroDof(ShearK(g, e), DofIndex(n, Offset(U))) && ZeroDof(ShearK(g, e), DofIndex(n, Offset(V)))
  {
    DsgNoInPlane(g, [First, Second, Other]);
    forall n | 0 <= n < 3
      ensures ZeroDof(ShearK(g, e), DofIndex(n, Offset(U))) && ZeroDof(ShearK(g, e), DofIndex(n, Offset(V)))
    {
      QuadraticFormZeroDof(Bs(g), EMatrix(e), DofIndex(n, Offset(U)));
      QuadraticFormZeroDof(Bs(g), EMatrix(e), DofIndex(n, Offset(V)));
    }
  }

  /** The shear stiffness of a cell of two triangles, Bskᵀ·E·Bsk (20x20). */
  function BlendedShearK(ac1: real, ac2: real, ac: real, g1: Dsg, g2: Dsg, e: TransverseShear): (k: Matrix)
    requires ac != 0.0 && g1.ae != 0.0 && g2.ae != 0.0
    ensures IsMatrix(k, DofCount, DofCount) && Cols(k) == DofCount
  {
    Triple(Bsk(ac1, ac2, ac, g1, g2), EMatrix(e), Bsk(ac1, ac2, ac, g1, g2))
  }

  /** The cell's shear stiffness is symmetric. */
  lemma BlendedShearKSymmetric(ac1: real, ac2: real, ac: real, g1: Dsg, g2: Dsg, e: TransverseShear)
    requires ac != 0.0 && g1.ae != 0.0 && g2.ae != 0.0
    ensures Symmetric(BlendedShearK(ac1, ac2, ac, g1, g2, e))
  {
    QuadraticFormSymmetric(Bsk(ac1, ac2, ac, g1, g2), EMatrix(e));
  }

  /** The in-plane displacements of all four nodes take no part in the cell's shear stiffness. */
  lemma BlendedShearKNoInPlane(ac1: real, ac2: real, ac: real, g1: Dsg, g2: Dsg, e: TransverseShear)
    requires ac != 0.0 && g1.ae != 0.0 && g2.ae != 0.0
    ensures forall n :: 0 <= n < NodeCount ==>
              ZeroDof(BlendedShearK(ac1, ac2, ac, g1, g2, e), DofIndex(n, Offset(U))) &&
              ZeroDof(BlendedShearK(ac1, ac2, ac, g1, g2, e), DofIndex(n, Offset(V)))
  {
    var x := Bsk(ac1, ac2, ac, g1, g2);
    BskPattern(ac1, ac2, ac, g1, g2);
    forall n | 0 <= n < NodeCount
      ensures ZeroDof(Triple(x, EMatrix(e), x), DofIndex(n, Offset(U)))
      ensures ZeroDof(Triple(x, EMatrix(e), x), DofIndex(n, Offset(V)))
    {
      QuadraticFormZeroDof(x, EMatrix(e), DofIndex(n, Offset(U)));
      QuadraticFormZeroDof(x, EMatrix(e), DofIndex(n, Offset(V)));
    }
  }

  /** With all of the area in the first triangle the cell's shear stiffness is Bs1ᵀ·E·Bs1. */
  lemma BlendedShearKAllFirst(ac1: real, ac: real, g1: Dsg, g2: Dsg, e: TransverseShear)
    requires ac != 0.0 && g1.ae != 0.0 && g2.ae != 0.0 && ac == ac1
    ensures BlendedShearK(ac1, 0.0, ac, g1, g2, e) == Triple(Bs1(g1), EMatrix(e), Bs1(g1))
  {
    BskAllFirst(ac1, ac, g1, g2);
  }

  /** With all of the area in the second triangle the cell's shear stiffness is Bs2ᵀ·E·Bs2. */
  lemma BlendedShearKAllSecond(ac2: real, ac: real, g1: Dsg, g2: Dsg, e: TransverseShear)
    requires ac != 0.0 && g1.ae != 0.0 && g2.ae != 0.0 && ac == ac2
    ensures BlendedShearK(0.0, ac2, ac, g1, g2, e) == Triple(Bs2(g2), EMatrix(e), Bs2(g2))
  {
    BskAllSecond(ac2, ac, g1, g2);
  }
}
