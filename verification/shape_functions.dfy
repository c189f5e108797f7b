/**
 * Interpolation rows of the smoothing cell.
 *
 * Each of the four nodes of a cell carries five degrees of freedom, ordered
 * u, v, w, phix, phiy, so the flattened displacement vector has 20 entries
 * and node j (counted from 0) owns columns 5*j .. 5*j + 4.  The row of one
 * family interpolates that family's field from the nodal values: it holds the
 * node's interpolation coefficient in the node's column for that family and
 * zero in every other column.
 */
module ShapeFunctions {
  import opened LinearAlgebra

  /** Degrees of freedom per node: u, v, w, phix, phiy. */
  const DofPerNode: nat := 5
  /** Nodes that contribute to one smoothing cell. */
  const NodeCount: nat := 4
  /** Length of the flattened displacement vector. */
  const DofCount: nat := 20

  /**
   * Column of degree of freedom `o` of node `j` in the flattened vector:
   * 5 * j + o, five being DofPerNode.  A valid offset keeps the column
   * inside node j's block.
   */
  function DofIndex(j: nat, o: nat): (c: nat)
    ensures o < DofPerNode ==> 5 * j <= c < 5 * j + DofPerNode
  {
    5 * j + o
  }

  /** The five fields interpolated on a node. */
  datatype Family = U | V | W | PhiX | PhiY

  /** Position of the family inside a node's block of five columns. */
  function Offset(fam: Family): (o: nat)
    ensures o < DofPerNode
  {
    match fam
    case U => 0
    case V => 1
    case W => 2
    case PhiX => 3
    case PhiY => 4
  }

  /** The interpolation coefficients of the four nodes, as seen from one edge. */
  datatype NodeCoeffs = NodeCoeffs(f1: real, f2: real, f3: real, f4: real)
  {
    /** The coefficient of node `j`, counted from 0. */
    function At(j: nat): real
      requires j < NodeCount
    {
      if j == 0 then f1 else if j == 1 then f2 else if j == 2 then f3 else f4
    }
  }

  /** The node (0..3) that owns column `c` of the flattened vector (5 being DofPerNode). */
  function NodeOfColumn(c: nat): (j: nat)
    requires c < DofCount
    ensures j < NodeCount && 5 * j <= c < 5 * j + DofPerNode
  {
    if c < 5 then 0 else if c < 10 then 1 else if c < 15 then 2 else 3
  }

  /** Column 5*j + o belongs to node j. */
  lemma NodeOfDofIndex(j: nat, o: nat)
    requires j < NodeCount && o < DofPerNode
    ensures NodeOfColumn(DofIndex(j, o)) == j
  {
  }

  /**
   * The 1x20 row interpolating family `fam` with coefficients `f`: column c
   * belongs to node j = NodeOfColumn(c) at offset c - 5*j, and holds that
   * node's coefficient when the offset is the family's.
   */
  function ShapeRow(fam: Family, f: NodeCoeffs): (r: Vector)
    ensures |r| == DofCount
  {
    seq(DofCount, c requires 0 <= c < DofCount =>
      var j := NodeOfColumn(c); if c - 5 * j == Offset(fam) then f.At(j) else 0.0)
  }

  /**
   * The coefficient of node j sits at column 5*j + Offset(fam) of the shape
   * row; every other column of node j's block is zero.
   */
  lemma ShapeRowEntry(fam: Family, f: NodeCoeffs, j: nat, o: nat)
    requires j < NodeCount && o < DofPerNode
    ensures ShapeRow(fam, f)[DofIndex(j, o)] == if o == Offset(fam) then f.At(j) else 0.0
  {
    NodeOfDofIndex(j, o);
  }
}
