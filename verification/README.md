# Smoothed plate stiffness matrices

This project models `scratch/stiffmatrices.py`. That script derives, in exact
symbolic arithmetic, the stiffness matrices of one smoothing cell of a
three-node triangular plate element. The cell spans the four nodes of two
triangles that share an edge (edge-based smoothed FEM with discrete shear gap
transverse shear). Every node has five degrees of freedom (u, v, w, phix,
phiy), so a cell has 20. Every strain operator has 8 rows, one per strain
component: exx, eyy, gxy, kxx, kyy, kxy, gxz, gyz. The script builds the
following stages, each a fixed-shape matrix over named scalars:

- **Shape rows.** Each of the five families on each of the four edges is a
  1x20 row. It holds the edge's interpolation coefficient `f_kj` of node j in
  that node's column for the family.
- **Constitutive blocks.** A, B, D and E are each embedded in an 8x8 matrix
  over the strain ordering.
- **Smoothed operators.** Bm (membrane) and Bb (bending) are each 8x20. Each
  is `1/Ac` times the sum over the four edges of `le_k` times an edge block
  built from the outward normal and the shape rows.
- **Membrane-bending stiffness.** `K = Ac*(Bmᵀ·A·Bm + Bmᵀ·B·Bb + Bbᵀ·B·Bm + Bbᵀ·D·Bb)`.
- **DSG operators.** Bs is 8x15, for one triangle. Bs1 and Bs2 are 8x20, one
  per triangle of the cell. Their blend is `Bsk = Ac1/Ac*Bs1 + Ac2/Ac*Bs2`.
- **Shear stiffnesses.** `Bsᵀ·E·Bs` for a triangle and `Bskᵀ·E·Bsk` for the cell.

Every sympy symbol becomes a `real` parameter. Dafny's `real` is exact, as
sympy's rationals are. Matrices are `seq<seq<real>>`. The generic operations
(transpose, product, sum, scalar multiple) and their algebra live in
`LinearAlgebra`. Each stage is a function, and the script's facts are lemmas.
Symmetry of the stiffness matrices is proved through the generic lemmas
`(XY)ᵀ = YᵀXᵀ` and "M symmetric ⇒ XᵀMX symmetric", not by expanding the
20x20 products.

Modules, in the order the script builds things:

- `LinearAlgebra`: matrices and their algebra.
- `ShapeFunctions`: the degree-of-freedom layout and the shape rows.
- `Constitutive`: A, B, D, E.
- `Smoothing`: Bm and Bb, the boundary-sum reading of each and their zero patterns.
- `ShearLayout`: operators that fill only the two shear rows, and blends of two matrices.
- `ShearGap`: the DSG operators Bs, Bs1, Bs2 and Bsk.
- `ShearGapProperties`: the DSG operators' zero patterns, their rotation weights and their blend.
- `Stiffness`: the three stiffness assemblies.

The three DSG operators share one table of per-node weights.
`ShearGap.Weights` gives, for a node slot (first or second node of the edge,
the triangle's other node, or an absent node) and a shear row, the five
entries. The entries are written exactly as in the script's literal
matrices. Bs, Bs1 and Bs2 differ only in their slot layouts:

- Bs: first, second, other.
- Bs1: first, second, other, absent.
- Bs2: first, second, absent, other.

On the axis-aligned unit square (outward normals (1,0), (0,1), (-1,0),
(0,-1), unit edge lengths, Ac = 1, every shape coefficient 1/4), the nx
contributions of the right and left edges cancel, and so do the ny
contributions of the top and bottom edges (lines 155-188 for Bm, 192-225 for Bb). Every entry of Bm
and Bb is therefore zero; see `Smoothing.AxisAlignedSquareSmoothsToZero`.

## Model

| member | source | states |
|---|---|---|
| LinearAlgebra.Transpose | scratch/stiffmatrices.py:227-230 | the transpose of an r×c matrix is c×r, with entry (j, i) equal to entry (i, j) of the original |
| LinearAlgebra.Add | scratch/stiffmatrices.py:227-230 | the sum of two matrices of one shape has that shape, and each entry is the sum of the two entries |
| LinearAlgebra.Scale | scratch/stiffmatrices.py:155-156 | a scalar multiple keeps the shape and multiplies every entry by the scalar |
| LinearAlgebra.Mul | scratch/stiffmatrices.py:227-230 | the product of an r×n matrix and an n×c matrix is r×c |
| LinearAlgebra.Triple | scratch/stiffmatrices.py:227-230 | `xᵀ·m·y`, evaluated as the script does (left to right), is Cols(x)×Cols(y) |
| LinearAlgebra.VAdd | scratch/stiffmatrices.py:158 | the sum of two rows of one length keeps that length, each entry the sum of the two entries (the `ny1*su1 + nx1*sv1` of line 158, and of 198) |
| LinearAlgebra.VScale | scratch/stiffmatrices.py:156-158 | a scalar times a row keeps the length and multiplies every entry by the scalar (`nx1*su1`, `ny1*sv1`, and their bending counterparts at 196-198) |
| LinearAlgebra.Dot | scratch/stiffmatrices.py:227-230 | the inner product behind every matrix product; the empty product is zero, and its algebra is stated by DotCommutes, DotAddLeft, DotScaleLeft, DotZeroLeft and DotRowTimes |
| LinearAlgebra.DotCommutes | scratch/stiffmatrices.py:227-230 | the dot product of two equal-length rows is commutative |
| LinearAlgebra.DotAddLeft | scratch/stiffmatrices.py:227-230 | the dot product distributes over a sum in its first argument |
| LinearAlgebra.DotScaleLeft | scratch/stiffmatrices.py:227-230 | a scalar factor of the first argument comes out of the dot product |
| LinearAlgebra.DotZeroLeft | scratch/stiffmatrices.py:227-230 | a zero first row gives a zero dot product |
| LinearAlgebra.DotZeroRight | scratch/stiffmatrices.py:227-230 | a zero second row gives a zero dot product |
| LinearAlgebra.RowTimesStep | scratch/stiffmatrices.py:227-230 | a row times a matrix splits off its first entry times the first row of the matrix |
| LinearAlgebra.DotRowTimes | scratch/stiffmatrices.py:227-230 | `(x·B)·y = x·(B·y)`, the vector form of associativity |
| LinearAlgebra.TransposeTwice | scratch/stiffmatrices.py:227-230 | transposing twice gives back the matrix |
| LinearAlgebra.ColumnOfProduct | scratch/stiffmatrices.py:227-230 | column l of `B·C` is B times column l of C |
| LinearAlgebra.MulAssociative | scratch/stiffmatrices.py:227-230 | `(A·B)·C = A·(B·C)`, so the script's left-to-right products are well defined |
| LinearAlgebra.TransposeOfProduct | scratch/stiffmatrices.py:227-230 | `(A·B)ᵀ = Bᵀ·Aᵀ` |
| LinearAlgebra.SymmetricIsOwnTranspose | scratch/stiffmatrices.py:82-124 | a symmetric matrix equals its transpose |
| LinearAlgebra.TransposeOfTriple | scratch/stiffmatrices.py:227-230 | `(xᵀ·m·y)ᵀ = yᵀ·mᵀ·x` |
| LinearAlgebra.CrossTermsTranspose | scratch/stiffmatrices.py:228-229 | for symmetric m the two coupling terms `xᵀ·m·y` and `yᵀ·m·x` are each other's transposes |
| LinearAlgebra.QuadraticFormSymmetric | scratch/stiffmatrices.py:274 | `xᵀ·m·x` is symmetric whenever m is |
| LinearAlgebra.ScaleSymmetric | scratch/stiffmatrices.py:227 | a multiple of a symmetric matrix is symmetric |
| LinearAlgebra.SymmetricSum | scratch/stiffmatrices.py:227-230 | `t1 + t2 + t3 + t4` is symmetric when t1 and t4 are symmetric and t3 is the transpose of t2 |
| LinearAlgebra.TripleZeroRow | scratch/stiffmatrices.py:227-230 | a zero column i of x gives `xᵀ·m·y` a zero row i |
| LinearAlgebra.TripleZeroColumn | scratch/stiffmatrices.py:227-230 | a zero column j of y gives `xᵀ·m·y` a zero column j |
| LinearAlgebra.TripleZeroMiddle | scratch/stiffmatrices.py:228-229 | a zero middle factor makes `xᵀ·m·y` the zero matrix |
| ShapeFunctions.Offset | scratch/stiffmatrices.py:58-62 | the position of a family inside a node's block of five is below five |
| ShapeFunctions.DofIndex | scratch/stiffmatrices.py:58-80 | column 5j + o of a family offset o < 5 lies in node j's block 5j..5j+4 |
| ShapeFunctions.NodeOfColumn | scratch/stiffmatrices.py:58-80 | every one of the 20 columns belongs to exactly one node j < 4, lying in that node's block 5j..5j+4 |
| ShapeFunctions.ShapeRow | scratch/stiffmatrices.py:58-80 | every shape row has 20 entries |
| ShapeFunctions.ShapeRowEntry | scratch/stiffmatrices.py:58-80 | the row of a family holds node j's coefficient at column 5j + offset(family) and zero at every other column of the node's block |
| Constitutive.AMatrix | scratch/stiffmatrices.py:82-91 | A is 8x8 and symmetric, and zero outside the membrane quadrant (rows and columns 0..2) |
| Constitutive.BMatrix | scratch/stiffmatrices.py:93-102 | B is 8x8 and symmetric, and zero outside the two membrane-bending cross quadrants |
| Constitutive.DMatrix | scratch/stiffmatrices.py:104-113 | D is 8x8 and symmetric, and zero outside the bending quadrant (rows and columns 3..5) |
| Constitutive.EMatrix | scratch/stiffmatrices.py:115-124 | E is 8x8 and symmetric, and zero outside the shear quadrant (rows and columns 6..7) |
| Constitutive.UncoupledBIsZero | scratch/stiffmatrices.py:93-102 | when B11..B66 are all zero, the coupling matrix B is the zero matrix |
| Smoothing.ZeroRow | scratch/stiffmatrices.py:154 | the ZERO row has 20 entries, all zero |
| Smoothing.EdgeRow | scratch/stiffmatrices.py:156-198 | an edge's contribution to one strain row has 20 entries |
| Smoothing.MembraneBlock | scratch/stiffmatrices.py:156-163 | an edge's membrane block is 8x20 |
| Smoothing.BendingBlock | scratch/stiffmatrices.py:193-200 | an edge's bending block is 8x20 |
| Smoothing.EdgeAverage | scratch/stiffmatrices.py:155-188 | `1/Ac * (le1*X1 + le2*X2 + le3*X3 + le4*X4)` is 8x20, each entry being that combination of the four blocks' entries |
| Smoothing.Bm | scratch/stiffmatrices.py:155-188 | Bm is 8x20 |
| Smoothing.Bb | scratch/stiffmatrices.py:192-225 | Bb is 8x20 |
| Smoothing.BoundaryRow | scratch/stiffmatrices.py:155-188 | a boundary sum of edge contributions is a row of 20 entries |
| Smoothing.BoundaryRowOfCell | scratch/stiffmatrices.py:155-188 | the boundary sum over a cell's edges is the sum of le_k times edge k's row, in edge order 1..4 |
| Smoothing.EdgeAverageRow | scratch/stiffmatrices.py:155-188 | a row of the edge average whose block rows are one strain row's edge contributions is `1/Ac` times that strain row's boundary sum |
| Smoothing.AverageOfRows | scratch/stiffmatrices.py:155-188 | row i of the edge average is `1/Ac` times the le-weighted sum of row i of the four blocks |
| Smoothing.EdgeAverageZeroRow | scratch/stiffmatrices.py:155-188 | a row that is ZERO in all four blocks is zero in the average |
| Smoothing.BmFilledRows | scratch/stiffmatrices.py:155-188 | rows exx, eyy, gxy of Bm are `1/Ac` times the boundary sums of nx·su, ny·sv and ny·su + nx·sv, weighted by le |
| Smoothing.BmZeroRows | scratch/stiffmatrices.py:155-188 | rows 3..7 of Bm are zero |
| Smoothing.BmIsBoundaryAverage | scratch/stiffmatrices.py:155-188 | Bm is the smoothed boundary integral: rows 0..2 are as in BmFilledRows, and rows 3..7 are zero |
| Smoothing.BbFilledRows | scratch/stiffmatrices.py:192-225 | rows kxx, kyy, kxy of Bb are `1/Ac` times the boundary sums of nx·sphix, ny·sphiy and ny·sphix + nx·sphiy, weighted by le |
| Smoothing.BbZeroRows | scratch/stiffmatrices.py:192-225 | rows 0..2 and 6..7 of Bb are zero |
| Smoothing.BbIsBoundaryAverage | scratch/stiffmatrices.py:192-225 | Bb is the smoothed boundary integral: rows 3..5 are as in BbFilledRows, and rows 0..2 and 6..7 are zero |
| Smoothing.EdgeRowZero | scratch/stiffmatrices.py:156-198 | an edge contributes nothing to a column whose field the strain row does not read, or whose node has coefficient zero on that edge |
| Smoothing.BoundaryRowZero | scratch/stiffmatrices.py:155-188 | the same holds for the boundary sum over any list of edges |
| Smoothing.AveragedRowZero | scratch/stiffmatrices.py:155-188 | it also holds after division by the area |
| Smoothing.BmRow | scratch/stiffmatrices.py:155-188 | every row of Bm is either an averaged boundary sum (rows 0..2) or zero |
| Smoothing.BbRow | scratch/stiffmatrices.py:192-225 | every row of Bb is either an averaged boundary sum (rows 3..5) or zero |
| Smoothing.BmEntryZero | scratch/stiffmatrices.py:155-188 | an entry of Bm is zero when its row is zero or its field is unread or its node's coefficients are zero |
| Smoothing.BbEntryZero | scratch/stiffmatrices.py:192-225 | the same for Bb |
| Smoothing.BmColumns | scratch/stiffmatrices.py:155-188 | Bm is zero in every w, phix and phiy column; its exx row does not read v and its eyy row does not read u |
| Smoothing.BbColumns | scratch/stiffmatrices.py:192-225 | Bb is zero in every u, v and w column; its kxx row does not read phiy and its kyy row does not read phix |
| Smoothing.NodeBlockVanishes | scratch/stiffmatrices.py:155-225 | a node whose coefficient is zero on all four edges has a zero column block in Bm and in Bb |
| Smoothing.NormalXRow | scratch/stiffmatrices.py:156-198 | the row multiplied by nx in a strain row has 20 entries |
| Smoothing.NormalYRow | scratch/stiffmatrices.py:156-198 | the row multiplied by ny in a strain row has 20 entries |
| Smoothing.Combine | scratch/stiffmatrices.py:158 | `a·x + b·y` is computed entry by entry |
| Smoothing.CombineStep | scratch/stiffmatrices.py:155-188 | adding le times one combination of x and y to another collects the coefficients |
| Smoothing.EdgeRowInNormal | scratch/stiffmatrices.py:156-198 | an edge's contribution to any strain row is linear in its normal: nx times one row plus ny times another |
| Smoothing.BoundaryRowOfSharedCoeffs | scratch/stiffmatrices.py:155-188 | with the same coefficients on every edge, a boundary sum depends on the edges only through Σ le·nx and Σ le·ny |
| Smoothing.AveragedRowVanishes | scratch/stiffmatrices.py:155-225 | on a closed boundary (Σ le·n = 0) with shared coefficients, every averaged boundary row is zero |
| Smoothing.UniformClosedBoundary | scratch/stiffmatrices.py:155-225 | on such a cell, Bm and Bb are the zero matrix |
| Smoothing.ClosedBmEntry | scratch/stiffmatrices.py:155-188 | on such a cell, every entry of Bm is zero |
| Smoothing.ClosedBbEntry | scratch/stiffmatrices.py:192-225 | on such a cell, every entry of Bb is zero |
| Smoothing.AxisAlignedSquareSmoothsToZero | scratch/stiffmatrices.py:155-225 | on the unit square with normals (1,0), (0,1), (-1,0), (0,-1) and coefficients 1/4, the exx row of Bm, and all of Bm and Bb, is zero |
| ShearLayout.ShearRows | scratch/stiffmatrices.py:240-249 | an operator filling only the two shear rows is 8 rows by the rows' length |
| ShearLayout.ShearRowsEntry | scratch/stiffmatrices.py:240-249 | rows 0..5 are zero, and rows 6 and 7 are the factor times gxz and gyz |
| ShearLayout.ShearRowsZeroColumn | scratch/stiffmatrices.py:240-249 | a column that both shear rows leave at zero is zero in the whole operator |
| ShearLayout.ShearRowsNoInPlane | scratch/stiffmatrices.py:240-249 | shear rows with zero u and v columns give an operator with zero u and v columns |
| ShearLayout.DiagonalPairs | scratch/stiffmatrices.py:248-249 | the scaled weights at (gxz, phix) and (gyz, phiy) and the zeros at the crossed pairs carry over to the operator |
| ShearLayout.BlendEntry | scratch/stiffmatrices.py:277 | an entry of `s·A + t·B` is s times A's entry plus t times B's |
| ShearLayout.BlendPicksFirst | scratch/stiffmatrices.py:277 | the weights 1 and 0 give back the first matrix |
| ShearLayout.BlendPicksSecond | scratch/stiffmatrices.py:277 | the weights 0 and 1 give back the second matrix |
| ShearLayout.BlendZeroEntry | scratch/stiffmatrices.py:277 | a blend is zero wherever both of its parts are |
| ShearLayout.BlendKeepsPattern | scratch/stiffmatrices.py:277 | a blend of two operators with zero rows 0..5 and zero u and v columns has the same pattern |
| ShearGap.Weights | scratch/stiffmatrices.py:248-272 | every slot's five weights leave u and v at zero, and an absent slot's weights are all zero |
| ShearGap.ShearRow | scratch/stiffmatrices.py:248-272 | a shear row has five entries per node slot |
| ShearGap.Factor | scratch/stiffmatrices.py:240 | the prefactor of the DSG operator times 2·Ae is one, so it is 1/(2·Ae) (the same prefactor with Ae1, Ae2 at lines 253 and 263) |
| ShearGap.Reciprocal | scratch/stiffmatrices.py:240 | `1/x` times x is one |
| ShearGap.Ratio | scratch/stiffmatrices.py:277 | the area weight Ac1/Ac (and Ac2/Ac) times Ac gives back Ac1 (Ac2) |
| ShearGap.DsgOperator | scratch/stiffmatrices.py:240-249 | a DSG operator is 8 rows by 5 columns per slot |
| ShearGap.Bs | scratch/stiffmatrices.py:240-249 | Bs is 8x15 |
| ShearGap.Bs1 | scratch/stiffmatrices.py:253-262 | Bs1 is 8x20 |
| ShearGap.Bs2 | scratch/stiffmatrices.py:263-272 | Bs2 is 8x20 |
| ShearGap.Bsk | scratch/stiffmatrices.py:277 | Bsk is 8x20 |
| ShearGapProperties.ShearRowEntry | scratch/stiffmatrices.py:248-272 | column 5n + o of a shear row holds weight o of slot n, as in the literal matrices |
| ShearGapProperties.ShearRowNoInPlane | scratch/stiffmatrices.py:248-272 | no slot gives a u or v column a weight |
| ShearGapProperties.DsgRowsZero | scratch/stiffmatrices.py:240-249 | every DSG operator is zero in rows 0..5 |
| ShearGapProperties.DsgNoInPlane | scratch/stiffmatrices.py:240-249 | every DSG operator is zero in every u and v column |
| ShearGapProperties.HalfOfArea | scratch/stiffmatrices.py:240 | `1/(2·Ae)` times Ae is one half |
| ShearGapProperties.FirstNodeRotation | scratch/stiffmatrices.py:240-272 | with the first node in the first slot, entries (6, 3) and (7, 4) are `Ae/(2·Ae) = 1/2`, and (6, 4) and (7, 3) are zero |
| ShearGapProperties.BsRotationEntries | scratch/stiffmatrices.py:240-249 | in Bs, entries (6, 3) and (7, 4) are one half, and (6, 4) and (7, 3) are zero |
| ShearGapProperties.FourthSlotAbsent | scratch/stiffmatrices.py:253-262 | both shear rows of Bs1's layout are zero in columns 15..19 |
| ShearGapProperties.ThirdSlotAbsent | scratch/stiffmatrices.py:263-272 | both shear rows of Bs2's layout are zero in columns 10..14 |
| ShearGapProperties.Bs1FourthNodeZero | scratch/stiffmatrices.py:253-262 | Bs1 is zero in columns 15..19 |
| ShearGapProperties.Bs2ThirdNodeZero | scratch/stiffmatrices.py:263-272 | Bs2 is zero in columns 10..14 |
| ShearGapProperties.Bs1Pattern | scratch/stiffmatrices.py:253-262 | Bs1 is 8x20, zero in rows 0..5 and in every u and v column |
| ShearGapProperties.Bs2Pattern | scratch/stiffmatrices.py:263-272 | Bs2 is 8x20, zero in rows 0..5 and in every u and v column |
| ShearGapProperties.BskPattern | scratch/stiffmatrices.py:277 | Bsk is zero in rows 0..5 and in every u and v column |
| ShearGapProperties.BskAllFirst | scratch/stiffmatrices.py:277 | when Ac2 = 0 and Ac = Ac1, Bsk is Bs1 |
| ShearGapProperties.BskAllSecond | scratch/stiffmatrices.py:277 | when Ac1 = 0 and Ac = Ac2, Bsk is Bs2 |
| Stiffness.FormSum | scratch/stiffmatrices.py:227-230 | the sum of the four laminate forms is n×n for operators with n columns |
| Stiffness.LaminateForm | scratch/stiffmatrices.py:227-230 | the membrane-bending form is Ac times the sum of the four forms, entry by entry |
| Stiffness.FormSumEntry | scratch/stiffmatrices.py:227-230 | an entry of the sum is the sum of the four forms' entries, in the script's order |
| Stiffness.FormSumSymmetric | scratch/stiffmatrices.py:227-230 | with symmetric A, B and D the sum of the four forms is symmetric |
| Stiffness.LaminateFormSymmetric | scratch/stiffmatrices.py:227-230 | with symmetric A, B and D the form is symmetric |
| Stiffness.LaminateFormZeroDof | scratch/stiffmatrices.py:227-230 | a degree of freedom that neither Bm nor Bb reads has a zero row and a zero column in the form |
| Stiffness.FormSumUncoupled | scratch/stiffmatrices.py:227-230 | when B is zero, the sum of the forms is `Bmᵀ·A·Bm + Bbᵀ·D·Bb` |
| Stiffness.LaminateFormDecoupled | scratch/stiffmatrices.py:227-230 | when B is zero, a freedom read only by Bm and one read only by Bb do not interact |
| Stiffness.QuadraticFormZeroDof | scratch/stiffmatrices.py:274 | a column that x leaves at zero gives `xᵀ·m·x` a zero row and a zero column |
| Stiffness.MembraneBendingK | scratch/stiffmatrices.py:227-230 | K is 20x20 |
| Stiffness.CellFormShapes | scratch/stiffmatrices.py:227-230 | Bm, Bb, A, B and D have the shapes that K needs |
| Stiffness.MembraneBendingKSymmetric | scratch/stiffmatrices.py:227-230 | K is symmetric |
| Stiffness.MembraneBendingKNoTransverse | scratch/stiffmatrices.py:227-230 | the row and the column of every node's w are zero in K |
| Stiffness.MembraneBendingKUncoupled | scratch/stiffmatrices.py:227-230 | when B11..B66 are zero, K equals `Ac·(Bmᵀ·A·Bm + Bbᵀ·D·Bb)` |
| Stiffness.MembraneBendingKDecoupled | scratch/stiffmatrices.py:227-230 | when B11..B66 are zero, K pairs no in-plane displacement (u, v) of any node with any rotation (phix, phiy) of any node |
| Stiffness.ShearK | scratch/stiffmatrices.py:274 | the triangle's shear stiffness is 15x15 |
| Stiffness.ShearKSymmetric | scratch/stiffmatrices.py:274 | `Bsᵀ·E·Bs` is symmetric |
| Stiffness.ShearKNoInPlane | scratch/stiffmatrices.py:274 | the u and v rows and columns of all three nodes are zero in `Bsᵀ·E·Bs` |
| Stiffness.BlendedShearK | scratch/stiffmatrices.py:278 | the cell's shear stiffness is 20x20 |
| Stiffness.BlendedShearKSymmetric | scratch/stiffmatrices.py:278 | `Bskᵀ·E·Bsk` is symmetric |
| Stiffness.BlendedShearKNoInPlane | scratch/stiffmatrices.py:278 | the u and v rows and columns of all four nodes are zero in `Bskᵀ·E·Bsk` |
| Stiffness.BlendedShearKAllFirst | scratch/stiffmatrices.py:277-278 | when all of the area is in the first triangle, the cell's shear stiffness is `Bs1ᵀ·E·Bs1` |
| Stiffness.BlendedShearKAllSecond | scratch/stiffmatrices.py:277-278 | when all of the area is in the second triangle, the cell's shear stiffness is `Bs2ᵀ·E·Bs2` |

## Left out

- Output of the matrices through `print_as_full` (lines 232, 275, 280): it emits text through the helper module `pim.sympytools`, and `pim.sympytools` is not part of this model.
- `sympy.simplify` (lines 275, 280) is left out. It rewrites an expression into a normal form without changing its value, and over exact `real` values it is the identity.
- The `sympy.var` declarations (lines 6-19, 237-252) become parameters. Edges, cells, laminate blocks and DSG coefficients are records of reals (`Edge`, `Cell`, `InPlane`, `TransverseShear`, `Dsg`), not global symbols.
- The commented-out derivations and strain notes (lines 21-56, 126-149, 233) are left out. They do not run.
- A sympy `ShapeError` is left out. Sympy raises it for a sum or product of mismatched matrices; the script never mismatches, and the model makes the shapes preconditions.
- The symbolic division by zero in `1/Ac`, `1/(2*Ae)`, `Ac1/Ac` and `Ac2/Ac` is left out. Sympy would produce `zoo`; the model requires `Ac`, `Ae`, `Ae1` and `Ae2` to be non-zero.
- The geometric meaning of the DSG coefficients a, b, c, d and Ae is not modelled. The weights are copied from the literal matrices and not derived from node coordinates.
- The constitutive parameters are arbitrary reals, not tied to a physical laminate. Nothing is proved about positive definiteness of A, D or E, or of the stiffness matrices.
- ShapeFunctions.ShapeRow: its own contract states only the length. The placement of the coefficients is stated by `ShapeFunctions.ShapeRowEntry` instead, so that entry facts are instantiated only when asked for.
- LinearAlgebra.Dot: its own contract states only that the empty product is zero. Its algebra is stated by `DotCommutes`, `DotAddLeft`, `DotScaleLeft`, `DotZeroLeft` and `DotRowTimes`, so that the solver unfolds those facts only where a proof asks for them.
- ShearGap.ShearRow: its own contract states only the length. The weight at each column is stated by `ShearGapProperties.ShearRowEntry`, for the same reason.
