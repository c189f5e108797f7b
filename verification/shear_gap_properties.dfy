/**
 * Properties of the discrete shear gap operators: which entries vanish,
 * the weight the first node's rotation receives, and how the area-weighted
 * blend of the two triangles of a cell behaves.
 */
module ShearGapProperties {
  import opened LinearAlgebra
  import opened ShapeFunctions
  import opened Constitutive
  import opened ShearLayout
  import opened ShearGap

  /** Column 5*n + o of a shear row holds entry o of the weights of slot n. */
  lemma ShearRowEntry(g: Dsg, slots: seq<Slot>, q: ShearStrain, n: nat, o: nat)
    requires Layout(slots) && n < |slots| && o < DofPerNode
    ensures ShearRow(g, slots, q)[DofIndex(n, o)] == Weights(g, slots[n], q)[o]
  {
    NodeOfDofIndex(n, o);
  }

  /** No slot gives the u or v column of a shear row a weight. */
  lemma ShearRowNoInPlane(g: Dsg, slots: seq<Slot>, q: ShearStrain)
    requires Layout(slots)
    ensures forall n :: 0 <= n < |slots| ==>
              ShearRow(g, slots, q)[DofIndex(n, Offset(U))] == 0.0 && ShearRow(g, slots, q)[DofIndex(n, Offset(V))] == 0.0
  {
    forall n | 0 <= n < |slots|
      ensures ShearRow(g, slots, q)[DofIndex(n, Offset(U))] == 0.0
      ensures ShearRow(g, slots, q)[DofIndex(n, Offset(V))] == 0.0
    {
      ShearRowEntry(g, slots, q, n, Offset(U));
      ShearRowEntry(g, slots, q, n, Offset(V));
    }
  }

  /** Only the transverse shear rows are filled: rows 0..5 (membrane and bending) are zero. */
  lemma DsgRowsZero(g: Dsg, slots: seq<Slot>)
    requires g.ae != 0.0 && Layout(slots)
    ensures forall i, col :: 0 <= i < 6 && 0 <= col < 5 * |slots| ==> DsgOperator(g, slots)[i][col] == 0.0
  {
    var x, y := ShearRow(g, slots, Gxz), ShearRow(g, slots, Gyz);
    forall i, col | 0 <= i < 6 && 0 <= col < 5 * |slots| ensures DsgOperator(g, slots)[i][col] == 0.0 {
      ShearRowsEntry(Factor(g), x, y, i, col);
    }
  }

  /** The shear strains read no in-plane displacement: every u and v column is zero. */
  lemma DsgNoInPlane(g: Dsg, slots: seq<Slot>)
    requires g.ae != 0.0 && Layout(slots)
    ensures forall i, n :: 0 <= i < StrainCount && 0 <= n < |slots| ==>
              DsgOperator(g, slots)[i][DofIndex(n, Offset(U))] == 0.0 &&
              DsgOperator(g, slots)[i][DofIndex(n, Offset(V))] == 0.0
  {
    ShearRowNoInPlane(g, slots, Gxz);
    ShearRowNoInPlane(g, slots, Gyz);
    ShearRowsNoInPlane(Factor(g), ShearRow(g, slots, Gxz), ShearRow(g, slots, Gyz), |slots|);
  }

  /** The factor 1/(2*Ae) times the area is one half. */
  lemma HalfOfArea(g: Dsg)
    requires g.ae != 0.0
    ensures Factor(g) * g.ae == 0.5
  {
    var k := Factor(g);
    assert 2.0 * (k * g.ae) == k * (2.0 * g.ae);
  }

  /**
   * Whenever the first slot is the first node of the edge, that node's
   * rotation enters its own shear strain with weight one half, Ae/(2*Ae), at
   * entries (gxz, phix) = (6, 3) and (gyz, phiy) = (7, 4), and does not enter
   * the crossed entries (6, 4) and (7, 3).
   */
  lemma FirstNodeRotation(g: Dsg, slots: seq<Slot>)
    requires g.ae != 0.0 && Layout(slots) && slots[0] == First
    ensures DsgOperator(g, slots)[6][3] == 0.5 && DsgOperator(g, slots)[7][4] == 0.5
    ensures DsgOperator(g, slots)[6][4] == 0.0 && DsgOperator(g, slots)[7][3] == 0.0
  {
    var x := ShearRow(g, slots, Gxz);
    var y := ShearRow(g, slots, Gyz);
    ShearRowEntry(g, slots, Gxz, 0, 3);
    ShearRowEntry(g, slots, Gyz, 0, 3);
    ShearRowEntry(g, slots, Gxz, 0, 4);
    ShearRowEntry(g, slots, Gyz, 0, 4);
    HalfOfArea(g);
    DiagonalPairs(Factor(g), x, y, g.ae, 0.5);
  }

  /** In Bs the first node's rotations have weight one half on their own shear strain and zero on the other. */
  lemma BsRotationEntries(g: Dsg)
    requires g.ae != 0.0
    ensures Bs(g)[6][3] == 0.5 && Bs(g)[7][4] == 0.5
    ensures Bs(g)[6][4] == 0.0 && Bs(g)[7][3] == 0.0
  {
    FirstNodeRotation(g, [First, Second, Other]);
  }

  /** The absent fourth slot of Bs1 leaves columns 15..19 of both shear rows at zero. */
  lemma FourthSlotAbsent(g: Dsg, q: ShearStrain)
    ensures forall col :: 15 <= col < DofCount ==> ShearRow(g, [First, Second, Other, Absent], q)[col] == 0.0
  {
    forall col | 15 <= col < DofCount ensures ShearRow(g, [First, Second, Other, Absent], q)[col] == 0.0 {
      ShearRowEntry(g, [First, Second, Other, Absent], q, 3, col - 15);
    }
  }

  /** The absent third slot of Bs2 leaves columns 10..14 of both shear rows at zero. */
  lemma ThirdSlotAbsent(g: Dsg, q: ShearStrain)
    ensures forall col :: 10 <= col < 15 ==> ShearRow(g, [First, Second, Absent, Other], q)[col] == 0.0
  {
    forall col | 10 <= col < 15 ensures ShearRow(g, [First, Second, Absent, Other], q)[col] == 0.0 {
      ShearRowEntry(g, [First, Second, Absent, Other], q, 2, col - 10);
    }
  }

  /** Bs1 leaves the fourth node out: columns 15..19 are zero. */
  lemma Bs1FourthNodeZero(g: Dsg)
    requires g.ae != 0.0
    ensures forall i, col :: 0 <= i < StrainCount && 15 <= col < DofCount ==> Bs1(g)[i][col] == 0.0
  {
    var slots := [First, Second, Other, Absent];
    FourthSlotAbsent(g, Gxz);
    FourthSlotAbsent(g, Gyz);
    forall i, col | 0 <= i < StrainCount && 15 <= col < DofCount ensures Bs1(g)[i][col] == 0.0 {
      ShearRowsZeroColumn(Factor(g), ShearRow(g, slots, Gxz), ShearRow(g, slots, Gyz), col);
    }
  }

  /** Bs2 leaves the third node out: columns 10..14 are zero. */
  lemma Bs2ThirdNodeZero(g: Dsg)
    requires g.ae != 0.0
    ensures forall i, col :: 0 <= i < StrainCount && 10 <= col < 15 ==> Bs2(g)[i][col] == 0.0
  {
    var slots := [First, Second, Absent, Other];
    ThirdSlotAbsent(g, Gxz);
    ThirdSlotAbsent(g, Gyz);
    forall i, col | 0 <= i < StrainCount && 10 <= col < 15 ensures Bs2(g)[i][col] == 0.0 {
      ShearRowsZeroColumn(Factor(g), ShearRow(g, slots, Gxz), ShearRow(g, slots, Gyz), col);
    }
  }

  /** Bs1 fills only the shear rows and reads no u or v column. */
  lemma Bs1Pattern(g: Dsg)
    requires g.ae != 0.0
    ensures ShearPattern(Bs1(g))
  {
    DsgRowsZero(g, [First, Second, Other, Absent]);
    DsgNoInPlane(g, [First, Second, Other, Absent]);
  }

  /** Bs2 fills only the shear rows and reads no u or v column. */
  lemma Bs2Pattern(g: Dsg)
    requires g.ae != 0.0
    ensures ShearPattern(Bs2(g))
  {
    DsgRowsZero(g, [First, Second, Absent, Other]);
    DsgNoInPlane(g, [First, Second, Absent, Other]);
  }

  /** The blend has the pattern of its parts: rows 0..5 are zero and no u or v column is read. */
  lemma BskPattern(ac1: real, ac2: real, ac: real, g1: Dsg, g2: Dsg)
    requires ac != 0.0 && g1.ae != 0.0 && g2.ae != 0.0
    ensures ShearPattern(Bsk(ac1, ac2, ac, g1, g2))
  {
    Bs1Pattern(g1);
    Bs2Pattern(g2);
    BlendKeepsPattern(Ratio(ac1, ac), Bs1(g1), Ratio(ac2, ac), Bs2(g2));
  }

  /** With all of the area in the first triangle (Ac1 = Ac, Ac2 = 0) the blend is Bs1. */
  lemma BskAllFirst(ac1: real, ac: real, g1: Dsg, g2: Dsg)
    requires ac != 0.0 && g1.ae != 0.0 && g2.ae != 0.0 && ac == ac1
    ensures Bsk(ac1, 0.0, ac, g1, g2) == Bs1(g1)
  {
    assert Ratio(ac1, ac) == 1.0 && Ratio(0.0, ac) == 0.0;
    BlendPicksFirst(Bs1(g1), Bs2(g2));
  }

  /** With all of the area in the second triangle (Ac1 = 0, Ac2 = Ac) the blend is Bs2. */
  lemma BskAllSecond(ac2: real, ac: real, g1: Dsg, g2: Dsg)
    requires ac != 0.0 && g1.ae != 0.0 && g2.ae != 0.0 && ac == ac2
    ensures Bsk(0.0, ac2, ac, g1, g2) == Bs2(g2)
  {
    assert Ratio(0.0, ac) == 0.0 && Ratio(ac2, ac) == 1.0;
    BlendPicksSecond(Bs1(g1), Bs2(g2));
  }
}
