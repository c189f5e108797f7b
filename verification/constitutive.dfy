/**
 * The constitutive blocks of the laminate, each embedded in an 8x8 matrix over
 * the strain ordering exx, eyy, gxy, kxx, kyy, kxy, gxz, gyz (indices 0..7).
 *
 *   A: membrane stiffness, the membrane quadrant 0..2 x 0..2;
 *   B: membrane-bending coupling, the two cross quadrants 0..2 x 3..5 and 3..5 x 0..2;
 *   D: bending stiffness, the bending quadrant 3..5 x 3..5;
 *   E: transverse shear stiffness, the shear quadrant 6..7 x 6..7.
 */
module Constitutive {
  import opened LinearAlgebra

  /** Number of strain components: exx, eyy, gxy, kxx, kyy, kxy, gxz, gyz. */
  const StrainCount: nat := 8

  /** The six independent entries of a symmetric 3x3 laminate block (A, B or D). */
  datatype InPlane = InPlane(s11: real, s12: real, s16: real, s22: real, s26: real, s66: real)

  /** The three independent entries of the symmetric 2x2 transverse shear block. */
  datatype TransverseShear = TransverseShear(e44: real, e45: real, e55: real)

  /** Strain indices 0..2 (exx, eyy, gxy). */
  predicate Membrane(i: int) { 0 <= i < 3 }
  /** Strain indices 3..5 (kxx, kyy, kxy). */
  predicate Bending(i: int) { 3 <= i < 6 }
  /** Strain indices 6..7 (gxz, gyz). */
  predicate Shear(i: int) { 6 <= i < 8 }

  function AMatrix(a: InPlane): (m: Matrix)
    ensures IsMatrix(m, 8, 8) && Symmetric(m)
    ensures forall i, j :: 0 <= i < 8 && 0 <= j < 8 && !(Membrane(i) && Membrane(j)) ==> m[i][j] == 0.0
  {
    [ [a.s11, a.s12, a.s16, 0.0, 0.0, 0.0, 0.0, 0.0],
      [a.s12, a.s22, a.s26, 0.0, 0.0, 0.0, 0.0, 0.0],
      [a.s16, a.s26, a.s66, 0.0, 0.0, 0.0, 0.0, 0.0],
      [0.0, 0.0, 0.0, 0.0, 0.0, 0.0, 0.0, 0.0],
      [0.0, 0.0, 0.0, 0.0, 0.0, 0.0, 0.0, 0.0],
      [0.0, 0.0, 0.0, 0.0, 0.0, 0.0, 0.0, 0.0],
      [0.0, 0.0, 0.0, 0.0, 0.0, 0.0, 0.0, 0.0],
      [0.0, 0.0, 0.0, 0.0, 0.0, 0.0, 0.0, 0.0] ]
  }

  function BMatrix(b: InPlane): (m: Matrix)
    ensures IsMatrix(m, 8, 8) && Symmetric(m)
    ensures forall i, j :: 0 <= i < 8 && 0 <= j < 8 && !(Membrane(i) && Bending(j)) && !(Bending(i) && Membrane(j)) ==>
              m[i][j] == 0.0
  {
    [ [0.0, 0.0, 0.0, b.s11, b.s12, b.s16, 0.0, 0.0],
      [0.0, 0.0, 0.0, b.s12, b.s22, b.s26, 0.0, 0.0],
      [0.0, 0.0, 0.0, b.s16, b.s26, b.s66, 0.0, 0.0],
      [b.s11, b.s12, b.s16, 0.0, 0.0, 0.0, 0.0, 0.0],
      [b.s12, b.s22, b.s26, 0.0, 0.0, 0.0, 0.0, 0.0],
      [b.s16, b.s26, b.s66, 0.0, 0.0, 0.0, 0.0, 0.0],
      [0.0, 0.0, 0.0, 0.0, 0.0, 0.0, 0.0, 0.0],
      [0.0, 0.0, 0.0, 0.0, 0.0, 0.0, 0.0, 0.0] ]
  }

  function DMatrix(d: InPlane): (m: Matrix)
    ensures IsMatrix(m, 8, 8) && Symmetric(m)
    ensures forall i, j :: 0 <= i < 8 && 0 <= j < 8 && !(Bending(i) && Bending(j)) ==> m[i][j] == 0.0
  {
    [ [0.0, 0.0, 0.0, 0.0, 0.0, 0.0, 0.0, 0.0],
      [0.0, 0.0, 0.0, 0.0, 0.0, 0.0, 0.0, 0.0],
      [0.0, 0.0, 0.0, 0.0, 0.0, 0.0, 0.0, 0.0],
      [0.0, 0.0, 0.0, d.s11, d.s12, d.s16, 0.0, 0.0],
      [0.0, 0.0, 0.0, d.s12, d.s22, d.s26, 0.0, 0.0],
      [0.0, 0.0, 0.0, d.s16, d.s26, d.s66, 0.0, 0.0],
      [0.0, 0.0, 0.0, 0.0, 0.0, 0.0, 0.0, 0.0],
      [0.0, 0.0, 0.0, 0.0, 0.0, 0.0, 0.0, 0.0] ]
  }

  function EMatrix(e: TransverseShear): (m: Matrix)
    ensures IsMatrix(m, 8, 8) && Symmetric(m)
    ensures forall i, j :: 0 <= i < 8 && 0 <= j < 8 && !(Shear(i) && Shear(j)) ==> m[i][j] == 0.0
  {
    [ [0.0, 0.0, 0.0, 0.0, 0.0, 0.0, 0.0, 0.0],
      [0.0, 0.0, 0.0, 0.0, 0.0, 0.0, 0.0, 0.0],
      [0.0, 0.0, 0.0, 0.0, 0.0, 0.0, 0.0, 0.0],
      [0.0, 0.0, 0.0, 0.0, 0.0, 0.0, 0.0, 0.0],
      [0.0, 0.0, 0.0, 0.0, 0.0, 0.0, 0.0, 0.0],
      [0.0, 0.0, 0.0, 0.0, 0.0, 0.0, 0.0, 0.0],
      [0.0, 0.0, 0.0, 0.0, 0.0, 0.0, e.e44, e.e45],
      [0.0, 0.0, 0.0, 0.0, 0.0, 0.0, e.e45, e.e55] ]
  }

  /** A block all of whose six stiffnesses are zero. */
  predicate Vanishes(b: InPlane) {
    b.s11 == 0.0 && b.s12 == 0.0 && b.s16 == 0.0 && b.s22 == 0.0 && b.s26 == 0.0 && b.s66 == 0.0
  }

  /** A coupling block with no entries is the zero matrix: the laminate is then uncoupled. */
  lemma UncoupledBIsZero(b: InPlane)
    requires Vanishes(b)
    ensures IsZero(BMatrix(b))
  {
  }
}
