/**
 * Smoothed strain-displacement operators of one smoothing cell.
 *
 * By the divergence theorem the strain averaged over the cell is a sum over
 * its boundary edges: edge k contributes its length le_k times its outward
 * normal (nx_k, ny_k) applied to the shape rows interpolated on that edge, and
 * the sum is divided by the cell area Ac.  The membrane operator Bm fills the
 * rows exx, eyy, gxy from the u and v rows; the bending operator Bb fills the
 * rows kxx, kyy, kxy from the phix and phiy rows.
 */
module Smoothing {
  import opened LinearAlgebra
  import opened ShapeFunctions
  import opened Constitutive

  /** One boundary edge: its length, its outward unit normal and the coefficients interpolated on it. */
  datatype Edge = Edge(le: real, nx: real, ny: real, f: NodeCoeffs)

  /** A smoothing cell bounded by four edges, of area `ac`. */
  datatype Cell = Cell(e1: Edge, e2: Edge, e3: Edge, e4: Edge, ac: real)

  function Edges(c: Cell): seq<Edge> {
    [c.e1, c.e2, c.e3, c.e4]
  }

  /** The 1x20 zero row. */
  function ZeroRow(): (z: Vector)
    ensures |z| == DofCount && forall k :: 0 <= k < DofCount ==> z[k] == 0.0
  {
    Zeros(DofCount)
  }

  /** The six smoothed strain rows that an edge contributes to. */
  datatype StrainRow = Exx | Eyy | Gxy | Kxx | Kyy | Kxy

  /**
   * The unweighted contribution of edge `e` to strain row `k`: its outward
   * normal applied to the interpolated u, v (membrane) or phix, phiy (bending).
   */
  function EdgeRow(k: StrainRow, e: Edge): (r: Vector)
    ensures |r| == DofCount
  {
    match k
    case Exx => VScale(e.nx, ShapeRow(U, e.f))
    case Eyy => VScale(e.ny, ShapeRow(V, e.f))
    case Gxy => VAdd(VScale(e.ny, ShapeRow(U, e.f)), VScale(e.nx, ShapeRow(V, e.f)))
    case Kxx => VScale(e.nx, ShapeRow(PhiX, e.f))
    case Kyy => VScale(e.ny, ShapeRow(PhiY, e.f))
    case Kxy => VAdd(VScale(e.ny, ShapeRow(PhiX, e.f)), VScale(e.nx, ShapeRow(PhiY, e.f)))
  }

  /** The membrane block of one edge: rows exx, eyy, gxy filled, the other five zero. */
  function MembraneBlock(e: Edge): (m: Matrix)
    ensures IsMatrix(m, StrainCount, DofCount)
  {
    [EdgeRow(Exx, e), EdgeRow(Eyy, e), EdgeRow(Gxy, e),
     ZeroRow(), ZeroRow(), ZeroRow(), ZeroRow(), ZeroRow()]
  }

  /** The bending block of one edge: rows kxx, kyy, kxy filled, the other five zero. */
  function BendingBlock(e: Edge): (m: Matrix)
    ensures IsMatrix(m, StrainCount, DofCount)
  {
    [ZeroRow(), ZeroRow(), ZeroRow(),
     EdgeRow(Kxx, e), EdgeRow(Kyy, e), EdgeRow(Kxy, e),
     ZeroRow(), ZeroRow()]
  }

  /** `(1/Ac) * (le1*X1 + le2*X2 + le3*X3 + le4*X4)`, summed left to right. */
  function EdgeAverage(c: Cell, x1: Matrix, x2: Matrix, x3: Matrix, x4: Matrix): (m: Matrix)
    requires c.ac != 0.0
    requires IsMatrix(x1, StrainCount, DofCount) && IsMatrix(x2, StrainCount, DofCount)
    requires IsMatrix(x3, StrainCount, DofCount) && IsMatrix(x4, StrainCount, DofCount)
    ensures IsMatrix(m, StrainCount, DofCount) && Cols(m) == DofCount
    ensures forall i, col :: 0 <= i < StrainCount && 0 <= col < DofCount ==>
              m[i][col] == (1.0 / c.ac) * (((c.e1.le * x1[i][col] + c.e2.le * x2[i][col])
                                            + c.e3.le * x3[i][col]) + c.e4.le * x4[i][col])
  {
    Scale(1.0 / c.ac,
      Add(Add(Add(Scale(c.e1.le, x1), Scale(c.e2.le, x2)), Scale(c.e3.le, x3)), Scale(c.e4.le, x4)))
  }

  /** The smoothed membrane strain-displacement operator (8x20). */
  function Bm(c: Cell): (m: Matrix)
    requires c.ac != 0.0
    ensures IsMatrix(m, StrainCount, DofCount) && Cols(m) == DofCount
  {
    EdgeAverage(c, MembraneBlock(c.e1), MembraneBlock(c.e2), MembraneBlock(c.e3), MembraneBlock(c.e4))
  }

  /** The smoothed bending strain-displacement operator (8x20). */
  function Bb(c: Cell): (m: Matrix)
    requires c.ac != 0.0
    ensures IsMatrix(m, StrainCount, DofCount) && Cols(m) == DofCount
  {
    EdgeAverage(c, BendingBlock(c.e1), BendingBlock(c.e2), BendingBlock(c.e3), BendingBlock(c.e4))
  }

  // ------------------------------------------------ the boundary-sum reading

  /**
   * The boundary sum of strain row `k` over any list of edges: the sum of
   * le * EdgeRow(k, e) over the edges, taken from the first edge to the last.
   */
  function BoundaryRow(k: StrainRow, edges: seq<Edge>): (r: Vector)
    ensures |r| == DofCount
    decreases |edges|
  {
    if edges == [] then ZeroRow()
    else VAdd(VScale(edges[0].le, EdgeRow(k, edges[0])), BoundaryRow(k, edges[1..]))
  }

  /** The boundary sum over the four edges of a cell, unrolled in the cell's edge order. */
  lemma BoundaryRowOfCell(k: StrainRow, c: Cell)
    ensures BoundaryRow(k, Edges(c))
         == VAdd(VScale(c.e1.le, EdgeRow(k, c.e1)), VAdd(VScale(c.e2.le, EdgeRow(k, c.e2)),
            VAdd(VScale(c.e3.le, EdgeRow(k, c.e3)), VAdd(VScale(c.e4.le, EdgeRow(k, c.e4)), ZeroRow()))))
  {
    var es := Edges(c);
    assert BoundaryRow(k, [c.e4]) == VAdd(VScale(c.e4.le, EdgeRow(k, c.e4)), ZeroRow()) by {
      assert [c.e4][1..] == [];
      assert BoundaryRow(k, []) == ZeroRow();
    }
    assert BoundaryRow(k, [c.e3, c.e4]) == VAdd(VScale(c.e3.le, EdgeRow(k, c.e3)), BoundaryRow(k, [c.e4])) by {
      assert [c.e3, c.e4][1..] == [c.e4];
    }
    assert BoundaryRow(k, [c.e2, c.e3, c.e4])
        == VAdd(VScale(c.e2.le, EdgeRow(k, c.e2)), BoundaryRow(k, [c.e3, c.e4])) by {
      assert [c.e2, c.e3, c.e4][1..] == [c.e3, c.e4];
    }
    assert BoundaryRow(k, es) == VAdd(VScale(c.e1.le, EdgeRow(k, c.e1)), BoundaryRow(k, [c.e2, c.e3, c.e4])) by {
      assert es[1..] == [c.e2, c.e3, c.e4];
    }
  }

  /**
   * Row `i` of the weighted edge average is the boundary sum of strain row
   * `k` divided by the area, when row `i` of every edge's block is that
   * edge's contribution to `k`.
   */
  lemma EdgeAverageRow(c: Cell, x1: Matrix, x2: Matrix, x3: Matrix, x4: Matrix, i: nat, k: StrainRow)
    requires c.ac != 0.0
    requires IsMatrix(x1, StrainCount, DofCount) && IsMatrix(x2, StrainCount, DofCount)
    requires IsMatrix(x3, StrainCount, DofCount) && IsMatrix(x4, StrainCount, DofCount)
    requires i < StrainCount
    requires x1[i] == EdgeRow(k, c.e1) && x2[i] == EdgeRow(k, c.e2)
    requires x3[i] == EdgeRow(k, c.e3) && x4[i] == EdgeRow(k, c.e4)
    ensures EdgeAverage(c, x1, x2, x3, x4)[i] == VScale(1.0 / c.ac, BoundaryRow(k, Edges(c)))
  {
    BoundaryRowOfCell(k, c);
    AverageOfRows(c, x1, x2, x3, x4, i, EdgeRow(k, c.e1), EdgeRow(k, c.e2), EdgeRow(k, c.e3), EdgeRow(k, c.e4));
  }

  lemma AverageOfRows(c: Cell, x1: Matrix, x2: Matrix, x3: Matrix, x4: Matrix, i: nat,
                      r1: Vector, r2: Vector, r3: Vector, r4: Vector)
    requires c.ac != 0.0
    requires IsMatrix(x1, StrainCount, DofCount) && IsMatrix(x2, StrainCount, DofCount)
    requires IsMatrix(x3, StrainCount, DofCount) && IsMatrix(x4, StrainCount, DofCount)
    requires i < StrainCount
    requires x1[i] == r1 && x2[i] == r2 && x3[i] == r3 && x4[i] == r4
    ensures EdgeAverage(c, x1, x2, x3, x4)[i]
         == VScale(1.0 / c.ac, VAdd(VScale(c.e1.le, r1), VAdd(VScale(c.e2.le, r2),
                                 VAdd(VScale(c.e3.le, r3), VAdd(VScale(c.e4.le, r4), ZeroRow())))))
  {
    var avg := EdgeAverage(c, x1, x2, x3, x4)[i];
    var sum := VScale(1.0 / c.ac, VAdd(VScale(c.e1.le, r1), VAdd(VScale(c.e2.le, r2),
                                  VAdd(VScale(c.e3.le, r3), VAdd(VScale(c.e4.le, r4), ZeroRow())))));
    forall col | 0 <= col < DofCount ensures avg[col] == sum[col] {
    }
  }

  /** Row `i` of the weighted edge average is zero when row `i` of every block is. */
  lemma EdgeAverageZeroRow(c: Cell, x1: Matrix, x2: Matrix, x3: Matrix, x4: Matrix, i: nat)
    requires c.ac != 0.0
    requires IsMatrix(x1, StrainCount, DofCount) && IsMatrix(x2, StrainCount, DofCount)
    requires IsMatrix(x3, StrainCount, DofCount) && IsMatrix(x4, StrainCount, DofCount)
    requires i < StrainCount
    requires x1[i] == ZeroRow() && x2[i] == ZeroRow() && x3[i] == ZeroRow() && x4[i] == ZeroRow()
    ensures EdgeAverage(c, x1, x2, x3, x4)[i] == ZeroRow()
  {
  }

  /** Row `i` (0..2) of Bm is the averaged boundary sum of its strain row. */
  lemma BmFilledRow(c: Cell, i: nat)
    requires c.ac != 0.0 && i < 3
    ensures Bm(c)[i] == VScale(1.0 / c.ac, BoundaryRow(RowOf(i), Edges(c)))
  {
    EdgeAverageRow(c, MembraneBlock(c.e1), MembraneBlock(c.e2), MembraneBlock(c.e3), MembraneBlock(c.e4), i, RowOf(i));
  }

  /** Rows exx, eyy, gxy of Bm are the averaged boundary sums of their strain rows. */
  lemma BmFilledRows(c: Cell)
    requires c.ac != 0.0
    ensures Bm(c)[0] == VScale(1.0 / c.ac, BoundaryRow(Exx, Edges(c)))
    ensures Bm(c)[1] == VScale(1.0 / c.ac, BoundaryRow(Eyy, Edges(c)))
    ensures Bm(c)[2] == VScale(1.0 / c.ac, BoundaryRow(Gxy, Edges(c)))
  {
    BmFilledRow(c, 0);
    BmFilledRow(c, 1);
    BmFilledRow(c, 2);
  }

  /** Rows 3..7 of Bm are zero. */
  lemma BmZeroRows(c: Cell)
    requires c.ac != 0.0
    ensures forall i :: 3 <= i < StrainCount ==> Bm(c)[i] == ZeroRow()
  {
    var x1, x2, x3, x4 := MembraneBlock(c.e1), MembraneBlock(c.e2), MembraneBlock(c.e3), MembraneBlock(c.e4);
    forall i | 3 <= i < StrainCount ensures Bm(c)[i] == ZeroRow() {
      EdgeAverageZeroRow(c, x1, x2, x3, x4, i);
    }
  }

  /**
   * The membrane operator as the smoothed boundary integral: rows exx, eyy,
   * gxy are the boundary sums of nx*su, ny*sv and ny*su + nx*sv weighted by
   * the edge lengths and divided by the cell area; the bending and shear rows
   * are zero.
   */
  lemma BmIsBoundaryAverage(c: Cell)
    requires c.ac != 0.0
    ensures Bm(c)[0] == VScale(1.0 / c.ac, BoundaryRow(Exx, Edges(c)))
    ensures Bm(c)[1] == VScale(1.0 / c.ac, BoundaryRow(Eyy, Edges(c)))
    ensures Bm(c)[2] == VScale(1.0 / c.ac, BoundaryRow(Gxy, Edges(c)))
    ensures forall i :: 3 <= i < StrainCount ==> Bm(c)[i] == ZeroRow()
  {
    BmFilledRows(c);
    BmZeroRows(c);
  }

  /** Row `i` (3..5) of Bb is the averaged boundary sum of its strain row. */
  lemma BbFilledRow(c: Cell, i: nat)
    requires c.ac != 0.0 && 3 <= i < 6
    ensures Bb(c)[i] == VScale(1.0 / c.ac, BoundaryRow(RowOf(i), Edges(c)))
  {
    EdgeAverageRow(c, BendingBlock(c.e1), BendingBlock(c.e2), BendingBlock(c.e3), BendingBlock(c.e4), i, RowOf(i));
  }

  /** Rows kxx, kyy, kxy of Bb are the averaged boundary sums of their strain rows. */
  lemma BbFilledRows(c: Cell)
    requires c.ac != 0.0
    ensures Bb(c)[3] == VScale(1.0 / c.ac, BoundaryRow(Kxx, Edges(c)))
    ensures Bb(c)[4] == VScale(1.0 / c.ac, BoundaryRow(Kyy, Edges(c)))
    ensures Bb(c)[5] == VScale(1.0 / c.ac, BoundaryRow(Kxy, Edges(c)))
  {
    BbFilledRow(c, 3);
    BbFilledRow(c, 4);
    BbFilledRow(c, 5);
  }

  /** Rows 0..2 and 6..7 of Bb are zero. */
  lemma BbZeroRows(c: Cell)
    requires c.ac != 0.0
    ensures forall i :: (0 <= i < 3 || 6 <= i < StrainCount) ==> Bb(c)[i] == ZeroRow()
  {
    var x1, x2, x3, x4 := BendingBlock(c.e1), BendingBlock(c.e2), BendingBlock(c.e3), BendingBlock(c.e4);
    forall i | 0 <= i < 3 || 6 <= i < StrainCount ensures Bb(c)[i] == ZeroRow() {
      EdgeAverageZeroRow(c, x1, x2, x3, x4, i);
    }
  }

  /**
   * The bending operator as the smoothed boundary integral: rows kxx, kyy,
   * kxy are the boundary sums of nx*sphix, ny*sphiy and ny*sphix + nx*sphiy
   * weighted by the edge lengths and divided by the cell area; the membrane
   * and shear rows are zero.
   */
  lemma BbIsBoundaryAverage(c: Cell)
    requires c.ac != 0.0
    ensures forall i :: (0 <= i < 3 || 6 <= i < StrainCount) ==> Bb(c)[i] == ZeroRow()
    ensures Bb(c)[3] == VScale(1.0 / c.ac, BoundaryRow(Kxx, Edges(c)))
    ensures Bb(c)[4] == VScale(1.0 / c.ac, BoundaryRow(Kyy, Edges(c)))
    ensures Bb(c)[5] == VScale(1.0 / c.ac, BoundaryRow(Kxy, Edges(c)))
  {
    BbFilledRows(c);
    BbZeroRows(c);
  }

  // ------------------------------------------------------- zero patterns

  /** The offsets (within a node's block) of the fields that strain row `k` reads. */
  predicate Reads(k: StrainRow, o: nat) {
    match k
    case Exx => o == Offset(U)
    case Eyy => o == Offset(V)
    case Gxy => o == Offset(U) || o == Offset(V)
    case Kxx => o == Offset(PhiX)
    case Kyy => o == Offset(PhiY)
    case Kxy => o == Offset(PhiX) || o == Offset(PhiY)
  }

  /** An edge contributes nothing to a column whose field the row does not read, or whose node has coefficient zero. */
  lemma EdgeRowZero(k: StrainRow, e: Edge, j: nat, o: nat)
    requires j < NodeCount && o < DofPerNode
    requires !Reads(k, o) || e.f.At(j) == 0.0
    ensures EdgeRow(k, e)[DofIndex(j, o)] == 0.0
  {
    ShapeRowEntry(U, e.f, j, o);
    ShapeRowEntry(V, e.f, j, o);
    ShapeRowEntry(PhiX, e.f, j, o);
    ShapeRowEntry(PhiY, e.f, j, o);
  }

  /** The same holds of the boundary sum over any list of edges. */
  lemma {:induction false} BoundaryRowZero(k: StrainRow, edges: seq<Edge>, j: nat, o: nat)
    requires j < NodeCount && o < DofPerNode
    requires forall n :: 0 <= n < |edges| ==> !Reads(k, o) || edges[n].f.At(j) == 0.0
    ensures BoundaryRow(k, edges)[DofIndex(j, o)] == 0.0
    decreases |edges|
  {
    if edges != [] {
      EdgeRowZero(k, edges[0], j, o);
      BoundaryRowZero(k, edges[1..], j, o);
    }
  }

  /** An averaged boundary row is zero where the boundary row itself is. */
  lemma AveragedRowZero(c: Cell, k: StrainRow, j: nat, o: nat)
    requires c.ac != 0.0 && j < NodeCount && o < DofPerNode
    requires forall n :: 0 <= n < 4 ==> !Reads(k, o) || Edges(c)[n].f.At(j) == 0.0
    ensures VScale(1.0 / c.ac, BoundaryRow(k, Edges(c)))[DofIndex(j, o)] == 0.0
  {
    BoundaryRowZero(k, Edges(c), j, o);
  }

  /** The strain row that row `i` (0..5) of Bm or Bb holds. */
  function RowOf(i: nat): StrainRow
    requires i < 6
  {
    if i == 0 then Exx else if i == 1 then Eyy else if i == 2 then Gxy
    else if i == 3 then Kxx else if i == 4 then Kyy else Kxy
  }

  /** Row `i` of Bm, read through the boundary sums. */
  lemma BmRow(c: Cell, i: nat)
    requires c.ac != 0.0 && i < StrainCount
    ensures Bm(c)[i] == if i < 3 then VScale(1.0 / c.ac, BoundaryRow(RowOf(i), Edges(c))) else ZeroRow()
  {
    BmIsBoundaryAverage(c);
    // The empty branches only make the solver split on the three filled rows.
    if i == 0 {
    } else if i == 1 {
    } else if i == 2 {
    }
  }

  /** Row `i` of Bb, read through the boundary sums. */
  lemma BbRow(c: Cell, i: nat)
    requires c.ac != 0.0 && i < StrainCount
    ensures Bb(c)[i] == if 3 <= i < 6 then VScale(1.0 / c.ac, BoundaryRow(RowOf(i), Edges(c))) else ZeroRow()
  {
    BbIsBoundaryAverage(c);
    // The empty branches only make the solver split on the three filled rows.
    if i == 3 {
    } else if i == 4 {
    } else if i == 5 {
    }
  }

  /** Entry (i, 5*j + o) of Bm, for a row that the boundary sum fills or one that is zero. */
  lemma BmEntryZero(c: Cell, i: nat, j: nat, o: nat)
    requires c.ac != 0.0 && i < StrainCount && j < NodeCount && o < DofPerNode
    requires i < 3 ==> forall n :: 0 <= n < 4 ==> !Reads(RowOf(i), o) || Edges(c)[n].f.At(j) == 0.0
    ensures Bm(c)[i][DofIndex(j, o)] == 0.0
  {
    BmRow(c, i);
    if i < 3 {
      AveragedRowZero(c, RowOf(i), j, o);
    }
  }

  /** Entry (i, 5*j + o) of Bb, for a row that the boundary sum fills or one that is zero. */
  lemma BbEntryZero(c: Cell, i: nat, j: nat, o: nat)
    requires c.ac != 0.0 && i < StrainCount && j < NodeCount && o < DofPerNode
    requires 3 <= i < 6 ==> forall n :: 0 <= n < 4 ==> !Reads(RowOf(i), o) || Edges(c)[n].f.At(j) == 0.0
    ensures Bb(c)[i][DofIndex(j, o)] == 0.0
  {
    BbRow(c, i);
    if 3 <= i < 6 {
      AveragedRowZero(c, RowOf(i), j, o);
    }
  }

  /**
   * Bm reads only the in-plane displacements: it is zero in every column of
   * w, phix and phiy; moreover its exx row does not read v and its eyy row
   * does not read u.
   */
  lemma BmColumns(c: Cell)
    requires c.ac != 0.0
    ensures forall i, j, o :: 0 <= i < StrainCount && 0 <= j < NodeCount && Offset(W) <= o < DofPerNode ==>
              Bm(c)[i][DofIndex(j, o)] == 0.0
    ensures forall j :: 0 <= j < NodeCount ==>
              Bm(c)[0][DofIndex(j, Offset(V))] == 0.0 && Bm(c)[1][DofIndex(j, Offset(U))] == 0.0
  {
    forall i, j, o | 0 <= i < StrainCount && 0 <= j < NodeCount && Offset(W) <= o < DofPerNode
      ensures Bm(c)[i][DofIndex(j, o)] == 0.0
    {
      BmEntryZero(c, i, j, o);
    }
    forall j | 0 <= j < NodeCount
      ensures Bm(c)[0][DofIndex(j, Offset(V))] == 0.0 && Bm(c)[1][DofIndex(j, Offset(U))] == 0.0
    {
      BmEntryZero(c, 0, j, Offset(V));
      BmEntryZero(c, 1, j, Offset(U));
    }
  }

  /**
   * Bb reads only the rotations: it is zero in every column of u, v and w;
   * moreover its kxx row does not read phiy and its kyy row does not read phix.
   */
  lemma BbColumns(c: Cell)
    requires c.ac != 0.0
    ensures forall i, j, o :: 0 <= i < StrainCount && 0 <= j < NodeCount && 0 <= o <= Offset(W) ==>
              Bb(c)[i][DofIndex(j, o)] == 0.0
    ensures forall j :: 0 <= j < NodeCount ==>
              Bb(c)[3][DofIndex(j, Offset(PhiY))] == 0.0 && Bb(c)[4][DofIndex(j, Offset(PhiX))] == 0.0
  {
    forall i, j, o | 0 <= i < StrainCount && 0 <= j < NodeCount && 0 <= o <= Offset(W)
      ensures Bb(c)[i][DofIndex(j, o)] == 0.0
    {
      BbEntryZero(c, i, j, o);
    }
    forall j | 0 <= j < NodeCount
      ensures Bb(c)[3][DofIndex(j, Offset(PhiY))] == 0.0 && Bb(c)[4][DofIndex(j, Offset(PhiX))] == 0.0
    {
      BbEntryZero(c, 3, j, Offset(PhiY));
      BbEntryZero(c, 4, j, Offset(PhiX));
    }
  }

  /**
   * Nodes contribute independently: when node `j` has coefficient zero on
   * every edge of the cell, its whole column block is zero in Bm and in Bb.
   */
  lemma NodeBlockVanishes(c: Cell, j: nat)
    requires c.ac != 0.0 && j < NodeCount
    requires forall n :: 0 <= n < 4 ==> Edges(c)[n].f.At(j) == 0.0
    ensures forall i, o :: 0 <= i < StrainCount && 0 <= o < DofPerNode ==> Bm(c)[i][DofIndex(j, o)] == 0.0
    ensures forall i, o :: 0 <= i < StrainCount && 0 <= o < DofPerNode ==> Bb(c)[i][DofIndex(j, o)] == 0.0
  {
    forall i, o | 0 <= i < StrainCount && 0 <= o < DofPerNode
      ensures Bm(c)[i][DofIndex(j, o)] == 0.0
    {
      BmEntryZero(c, i, j, o);
    }
    forall i, o | 0 <= i < StrainCount && 0 <= o < DofPerNode
      ensures Bb(c)[i][DofIndex(j, o)] == 0.0
    {
      BbEntryZero(c, i, j, o);
    }
  }

  // ------------------------------------------------ closed boundaries

  /** Sum of le * nx over the edges, first to last. */
  function SumLeNx(edges: seq<Edge>): real
    decreases |edges|
  {
    if edges == [] then 0.0 else edges[0].le * edges[0].nx + SumLeNx(edges[1..])
  }

  /** Sum of le * ny over the edges, first to last. */
  function SumLeNy(edges: seq<Edge>): real
    decreases |edges|
  {
    if edges == [] then 0.0 else edges[0].le * edges[0].ny + SumLeNy(edges[1..])
  }

  /** The row that the x component of the normal multiplies in strain row `k`. */
  function NormalXRow(k: StrainRow, f: NodeCoeffs): (r: Vector)
    ensures |r| == DofCount
  {
    match k
    case Exx => ShapeRow(U, f)
    case Eyy => ZeroRow()
    case Gxy => ShapeRow(V, f)
    case Kxx => ShapeRow(PhiX, f)
    case Kyy => ZeroRow()
    case Kxy => ShapeRow(PhiY, f)
  }

  /** The row that the y component of the normal multiplies in strain row `k`. */
  function NormalYRow(k: StrainRow, f: NodeCoeffs): (r: Vector)
    ensures |r| == DofCount
  {
    match k
    case Exx => ZeroRow()
    case Eyy => ShapeRow(V, f)
    case Gxy => ShapeRow(U, f)
    case Kxx => ZeroRow()
    case Kyy => ShapeRow(PhiY, f)
    case Kxy => ShapeRow(PhiX, f)
  }

  lemma CollectTerms(le: real, nx: real, ny: real, x: real, y: real, sx: real, sy: real)
    ensures le * (nx * x + ny * y) + (sx * x + sy * y) == (le * nx + sx) * x + (le * ny + sy) * y
  {
  }

  /** `a * x + b * y` for two rows `x`, `y` of equal length. */
  function Combine(a: real, x: Vector, b: real, y: Vector): (r: Vector)
    requires |x| == |y|
    ensures |r| == |x| && forall col :: 0 <= col < |x| ==> r[col] == a * x[col] + b * y[col]
  {
    VAdd(VScale(a, x), VScale(b, y))
  }

  /** Adding `le` times one combination of `x`, `y` to another collects the coefficients. */
  lemma CombineStep(le: real, a: real, b: real, c: real, d: real, p: real, q: real, x: Vector, y: Vector)
    requires |x| == |y| && p == le * a + c && q == le * b + d
    ensures VAdd(VScale(le, Combine(a, x, b, y)), Combine(c, x, d, y)) == Combine(p, x, q, y)
  {
    var lhs, rhs := VAdd(VScale(le, Combine(a, x, b, y)), Combine(c, x, d, y)), Combine(p, x, q, y);
    forall col | 0 <= col < |x| ensures lhs[col] == rhs[col] {
      CollectTerms(le, a, b, x[col], y[col], c, d);
    }
  }

  lemma CombineZeroRight(a: real, x: Vector, b: real)
    ensures VScale(a, x) == Combine(a, x, b, Zeros(|x|))
  {
    var l, r := VScale(a, x), Combine(a, x, b, Zeros(|x|));
    assert forall col :: 0 <= col < |x| ==> l[col] == r[col];
  }

  lemma CombineZeroLeft(a: real, b: real, y: Vector)
    ensures VScale(b, y) == Combine(a, Zeros(|y|), b, y)
  {
    var l, r := VScale(b, y), Combine(a, Zeros(|y|), b, y);
    assert forall col :: 0 <= col < |y| ==> l[col] == r[col];
  }

  lemma CombineSwap(a: real, x: Vector, b: real, y: Vector)
    requires |x| == |y|
    ensures VAdd(VScale(b, y), VScale(a, x)) == Combine(a, x, b, y)
  {
    var l, r := VAdd(VScale(b, y), VScale(a, x)), Combine(a, x, b, y);
    assert forall col :: 0 <= col < |x| ==> l[col] == r[col];
  }

  /** An edge's contribution is linear in its normal: nx times one row plus ny times another. */
  lemma EdgeRowInNormal(k: StrainRow, e: Edge)
    ensures EdgeRow(k, e) == Combine(e.nx, NormalXRow(k, e.f), e.ny, NormalYRow(k, e.f))
  {
    match k
    case Exx => CombineZeroRight(e.nx, ShapeRow(U, e.f), e.ny);
    case Eyy => CombineZeroLeft(e.nx, e.ny, ShapeRow(V, e.f));
    case Gxy => CombineSwap(e.nx, ShapeRow(V, e.f), e.ny, ShapeRow(U, e.f));
    case Kxx => CombineZeroRight(e.nx, ShapeRow(PhiX, e.f), e.ny);
    case Kyy => CombineZeroLeft(e.nx, e.ny, ShapeRow(PhiY, e.f));
    case Kxy => CombineSwap(e.nx, ShapeRow(PhiY, e.f), e.ny, ShapeRow(PhiX, e.f));
  }

  /**
   * When every edge interpolates with the same coefficients, the boundary
   * sum of any strain row depends on the edges only through the totals of
   * le * nx and le * ny.
   */
  lemma {:induction false} BoundaryRowOfSharedCoeffs(k: StrainRow, edges: seq<Edge>, f: NodeCoeffs)
    requires forall n :: 0 <= n < |edges| ==> edges[n].f == f
    ensures BoundaryRow(k, edges)
         == Combine(SumLeNx(edges), NormalXRow(k, f), SumLeNy(edges), NormalYRow(k, f))
    decreases |edges|
  {
    var x, y := NormalXRow(k, f), NormalYRow(k, f);
    if edges == [] {
      var z := Combine(0.0, x, 0.0, y);
      forall col | 0 <= col < DofCount ensures ZeroRow()[col] == z[col] {
      }
      assert BoundaryRow(k, edges) == ZeroRow();
    } else {
      var e, rest := edges[0], edges[1..];
      assert e.f == f;
      var sx, sy := SumLeNx(rest), SumLeNy(rest);
      assert EdgeRow(k, e) == Combine(e.nx, x, e.ny, y) by {
        EdgeRowInNormal(k, e);
      }
      assert BoundaryRow(k, rest) == Combine(sx, x, sy, y) by {
        BoundaryRowOfSharedCoeffs(k, rest, f);
      }
      assert BoundaryRow(k, edges) == VAdd(VScale(e.le, Combine(e.nx, x, e.ny, y)), Combine(sx, x, sy, y));
      CombineStep(e.le, e.nx, e.ny, sx, sy, SumLeNx(edges), SumLeNy(edges), x, y);
      assert BoundaryRow(k, edges) == Combine(SumLeNx(edges), x, SumLeNy(edges), y);
    }
  }

  /** A cell whose edges all share the coefficients `f` and whose boundary closes: sum le*n = 0. */
  predicate UniformClosed(c: Cell, f: NodeCoeffs) {
    && (forall n :: 0 <= n < 4 ==> Edges(c)[n].f == f)
    && SumLeNx(Edges(c)) == 0.0 && SumLeNy(Edges(c)) == 0.0
  }

  lemma AveragedRowVanishes(c: Cell, f: NodeCoeffs, k: StrainRow, col: nat)
    requires c.ac != 0.0 && col < DofCount && UniformClosed(c, f)
    ensures VScale(1.0 / c.ac, BoundaryRow(k, Edges(c)))[col] == 0.0
  {
    BoundaryRowOfSharedCoeffs(k, Edges(c), f);
    assert BoundaryRow(k, Edges(c))[col] == 0.0;
  }

  /**
   * Uniform interpolation on a closed boundary smooths every strain to
   * zero: Bm and Bb are the zero matrix.
   */
  lemma UniformClosedBoundary(c: Cell, f: NodeCoeffs)
    requires c.ac != 0.0 && UniformClosed(c, f)
    ensures IsZero(Bm(c)) && IsZero(Bb(c))
  {
    forall i, col | 0 <= i < StrainCount && 0 <= col < DofCount ensures Bm(c)[i][col] == 0.0 {
      ClosedBmEntry(c, f, i, col);
    }
    forall i, col | 0 <= i < StrainCount && 0 <= col < DofCount ensures Bb(c)[i][col] == 0.0 {
      ClosedBbEntry(c, f, i, col);
    }
  }

  lemma ClosedBmEntry(c: Cell, f: NodeCoeffs, i: nat, col: nat)
    requires c.ac != 0.0 && UniformClosed(c, f) && i < StrainCount && col < DofCount
    ensures Bm(c)[i][col] == 0.0
  {
    BmRow(c, i);
    if i < 3 {
      AveragedRowVanishes(c, f, RowOf(i), col);
    }
  }

  lemma ClosedBbEntry(c: Cell, f: NodeCoeffs, i: nat, col: nat)
    requires c.ac != 0.0 && UniformClosed(c, f) && i < StrainCount && col < DofCount
    ensures Bb(c)[i][col] == 0.0
  {
    BbRow(c, i);
    if 3 <= i < 6 {
      AveragedRowVanishes(c, f, RowOf(i), col);
    }
  }

  /**
   * The unit square with its four edges in the order right, top, left,
   * bottom (outward normals (1,0), (0,1), (-1,0), (0,-1)), unit edge lengths,
   * unit area and every coefficient 1/4.
   */
  function AxisAlignedSquare(): Cell {
    var f := NodeCoeffs(0.25, 0.25, 0.25, 0.25);
    Cell(Edge(1.0, 1.0, 0.0, f), Edge(1.0, 0.0, 1.0, f), Edge(1.0, -1.0, 0.0, f), Edge(1.0, 0.0, -1.0, f), 1.0)
  }

  /**
   * On that square the nx contributions of the right and left edges cancel
   * (and so do the ny contributions of top and bottom), so the exx row of Bm,
   * and every other entry of Bm and Bb, is zero.
   */
  lemma AxisAlignedSquareSmoothsToZero()
    ensures Bm(AxisAlignedSquare())[0] == ZeroRow()
    ensures IsZero(Bm(AxisAlignedSquare())) && IsZero(Bb(AxisAlignedSquare()))
  {
    var c := AxisAlignedSquare();
    var f := NodeCoeffs(0.25, 0.25, 0.25, 0.25);
    assert Edges(c)[1..] == [c.e2, c.e3, c.e4];
    assert Edges(c)[1..][1..] == [c.e3, c.e4];
    assert Edges(c)[1..][1..][1..] == [c.e4];
    assert Edges(c)[1..][1..][1..][1..] == [];
    assert SumLeNx(Edges(c)) == 0.0 && SumLeNy(Edges(c)) == 0.0;
    UniformClosedBoundary(c, f);
  }
}
