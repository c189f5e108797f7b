/**
 * Discrete shear gap (DSG) operators for the transverse shear strains.
 *
 * A DSG operator is an 8-row matrix over the strain ordering of the
 * constitutive blocks; only its last two rows, gxz and gyz, are filled.  Its
 * columns are grouped in blocks of five (u, v, w, phix, phiy), one per node
 * slot: the first and second node of the edge, the other node of the
 * triangle, or an absent node whose block stays zero.  Every entry is
 * multiplied by 1 / (2 * Ae), where Ae is the triangle area.
 */
module ShearGap {
  import opened LinearAlgebra
  import opened ShapeFunctions
  import opened Constitutive
  import opened ShearLayout

  /** The geometric coefficients of one triangle: a, b, c, d and its area Ae. */
  datatype Dsg = Dsg(a: real, b: real, c: real, d: real, ae: real)

  /** The role of a node block in a DSG operator. */
  datatype Slot = First | Second | Other | Absent

  /** The two transverse shear rows. */
  datatype ShearStrain = Gxz | Gyz

  /** The five entries (u, v, w, phix, phiy) that slot `s` holds in row `q`, before the 1/(2*Ae) factor. */
  function Weights(g: Dsg, s: Slot, q: ShearStrain): (w: Vector)
    ensures |w| == DofPerNode
    ensures w[Offset(U)] == 0.0 && w[Offset(V)] == 0.0
    ensures s == Absent ==> forall o :: 0 <= o < DofPerNode ==> w[o] == 0.0
  {
    match (s, q)
    case (First, Gxz)  => [0.0, 0.0, g.b - g.d, g.ae, 0.0]
    case (First, Gyz)  => [0.0, 0.0, g.c - g.a, 0.0, g.ae]
    case (Second, Gxz) => [0.0, 0.0, g.d, g.a * g.d / 2.0, g.b * g.d / 2.0]
    case (Second, Gyz) => [0.0, 0.0, -g.c, -g.a * g.c / 2.0, -g.b * g.c / 2.0]
    case (Other, Gxz)  => [0.0, 0.0, -g.b, -g.b * g.c / 2.0, -g.b * g.d / 2.0]
    case (Other, Gyz)  => [0.0, 0.0, g.a, g.a * g.c / 2.0, g.a * g.d / 2.0]
    case (Absent, _)   => [0.0, 0.0, 0.0, 0.0, 0.0]
  }

  /** A DSG operator spans a triangle (three node slots) or a cell of two triangles (four). */
  predicate Layout(slots: seq<Slot>) {
    |slots| == 3 || |slots| == 4
  }

  /**
   * Row `q` of the operator before scaling: the weights of every slot, one
   * block of five after the other.  Entry 5*n + o is entry o of slot n.
   */
  function ShearRow(g: Dsg, slots: seq<Slot>, q: ShearStrain): (r: Vector)
    requires Layout(slots)
    ensures |r| == 5 * |slots|
  {
    seq(5 * |slots|, c requires 0 <= c < 5 * |slots| =>
      var n := NodeOfColumn(c); Weights(g, slots[n], q)[c - 5 * n])
  }

  /** The factor 1/(2*Ae) in front of every DSG operator. */
  function Factor(g: Dsg): (k: real)
    requires g.ae != 0.0
    ensures k * (2.0 * g.ae) == 1.0
  {
    Reciprocal(2.0 * g.ae)
  }

  /** The reciprocal of a non-zero real. */
  function Reciprocal(x: real): (r: real)
    requires x != 0.0
    ensures r * x == 1.0
  {
    1.0 / x
  }

  /** The quotient x / y of two reals, y non-zero. */
  function Ratio(x: real, y: real): (r: real)
    requires y != 0.0
    ensures r * y == x
  {
    x / y
  }

  /**
   * The DSG operator of a triangle whose node blocks are laid out as
   * `slots`: six zero rows, then gxz and gyz, all scaled by 1/(2*Ae).
   */
  function DsgOperator(g: Dsg, slots: seq<Slot>): (m: Matrix)
    requires g.ae != 0.0 && Layout(slots)
    ensures IsMatrix(m, StrainCount, 5 * |slots|) && Cols(m) == 5 * |slots|
  {
    ShearRows(Factor(g), ShearRow(g, slots, Gxz), ShearRow(g, slots, Gyz))
  }

  /** Bs: node 1, node 2 and the other node of one triangle (8x15). */
  function Bs(g: Dsg): (m: Matrix)
    requires g.ae != 0.0
    ensures IsMatrix(m, StrainCount, 15) && Cols(m) == 15
  {
    DsgOperator(g, [First, Second, Other])
  }

  /** Bs1: the first triangle of the cell; its other node is the third node, the fourth is absent (8x20). */
  function Bs1(g: Dsg): (m: Matrix)
    requires g.ae != 0.0
    ensures IsMatrix(m, StrainCount, DofCount) && Cols(m) == DofCount
  {
    DsgOperator(g, [First, Second, Other, Absent])
  }

  /** Bs2: the second triangle of the cell; the third node is absent, its other node is the fourth (8x20). */
  function Bs2(g: Dsg): (m: Matrix)
    requires g.ae != 0.0
    ensures IsMatrix(m, StrainCount, DofCount) && Cols(m) == DofCount
  {
    DsgOperator(g, [First, Second, Absent, Other])
  }

  /** The area-weighted blend Ac1/Ac * Bs1 + Ac2/Ac * Bs2 of the two triangles' operators. */
  function Bsk(ac1: real, ac2: real, ac: real, g1: Dsg, g2: Dsg): (m: Matrix)
    requires ac != 0.0 && g1.ae != 0.0 && g2.ae != 0.0
    ensures IsMatrix(m, StrainCount, DofCount) && Cols(m) == DofCount
  {
    Add(Scale(Ratio(ac1, ac), Bs1(g1)), Scale(Ratio(ac2, ac), Bs2(g2)))
  }
}
