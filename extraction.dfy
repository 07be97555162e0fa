/**
 * VoxelMeshExtractor: the per-cell step of the mesher. It reads the eight
 * corners of a cell, emits the regular cell's triangles into the main mesh
 * handler and, on the faces of the chunk at a coarse LOD, the transition
 * cells' triangles into the six transition handlers. Interpolation, the
 * geometric weight of a material and the rounding of the coarse material
 * address work on floats and are parameters here.
 */
module Extraction {
  import opened Lattice
  import opened Quantize
  import opened VoxelGrid
  import opened CaseCodes
  import opened Welding

  /** PointAddr: three uint8 coordinates. */
  datatype PointAddr = PointAddr(x: byte, y: byte, z: byte)

  /** An int stored into a uint8. */
  function ToUint8(v: int): (r: byte)
    ensures 0 <= v < 256 ==> r == v
  {
    v % 256
  }

  /** clcMediumAddr(adr1, adr2), coordinate by coordinate: halfway from adr1 toward adr2. */
  function MediumAddr(a1: PointAddr, a2: PointAddr): PointAddr
  {
    PointAddr(MediumCoord(a1.x, a2.x), MediumCoord(a1.y, a2.y), MediumCoord(a1.z, a2.z))
  }

  /** A sample as the extractor sees it: address, position, density and material. */
  datatype Point<P> = Point(adr: PointAddr, pos: P, density: real, material: int)

  /** The corner classification: inside when the density is below the isolevel. */
  predicate Below<P>(p: Point<P>)
  {
    p.density < IsoLevel
  }

  /** The regular corner flags of a cell's eight corners. */
  function RegularBelow<P>(d: seq<Point<P>>): (b: seq<bool>)
    requires |d| == 8
    ensures |b| == 8 && forall i :: 0 <= i < 8 ==> b[i] == Below(d[i])
  {
    [Below(d[0]), Below(d[1]), Below(d[2]), Below(d[3]), Below(d[4]), Below(d[5]), Below(d[6]), Below(d[7])]
  }

  /** The transition flags of the nine full-resolution samples. */
  function TransitionBelow<P>(d: seq<Point<P>>): (b: seq<bool>)
    requires |d| >= 9
    ensures |b| == 9 && forall i :: 0 <= i < 9 ==> b[i] == Below(d[i])
  {
    [Below(d[0]), Below(d[1]), Below(d[2]), Below(d[3]), Below(d[4]), Below(d[5]), Below(d[6]), Below(d[7]), Below(d[8])]
  }

  // ---------------------------------------------------------------------------
  // Material weights

  /** The material id taken as the base (dirt). */
  const BaseMat: int := 1

  /** How materialCalculation sets the weight: a constant, or a distance ratio from one endpoint. */
  datatype WeightRule = Constant(w: real) | FromFirst | FromSecond

  /**
   * materialCalculation's branches: 0 when both endpoints are base, 1 when
   * they share another material, otherwise the distance ratio from the
   * non-base endpoint (the first one when both are non-base).
   */
  function MaterialWeightRule(mat1: int, mat2: int): WeightRule
  {
    if mat1 == BaseMat && mat2 == BaseMat then Constant(0.0)
    else if mat1 == mat2 then Constant(1.0)
    else if mat1 != BaseMat then FromFirst
    else FromSecond
  }

  /**
   * Every pair of materials gets a weight (the last branch of
   * materialCalculation is always taken when reached), and the rule measures
   * from an endpoint that is not base.
   */
  lemma MaterialWeightRuleCases(mat1: int, mat2: int)
    ensures MaterialWeightRule(mat1, mat2) == Constant(0.0) <==> mat1 == BaseMat && mat2 == BaseMat
    ensures MaterialWeightRule(mat1, mat2) == Constant(1.0) <==> mat1 == mat2 && mat1 != BaseMat
    ensures MaterialWeightRule(mat1, mat2) == FromFirst <==> mat1 != mat2 && mat1 != BaseMat
    ensures MaterialWeightRule(mat1, mat2) == FromSecond <==> mat1 == BaseMat && mat2 != BaseMat
  {
  }

  /** materialCalculation2: weight 0 when the sampled material is base, 1 otherwise. */
  function CoarseWeight(mat: int): (w: real)
    ensures w == 0.0 <==> mat == BaseMat
    ensures w == 0.0 || w == 1.0
  {
    if BaseMat == mat then 0.0 else 1.0
  }

  // ---------------------------------------------------------------------------
  // Vertex lists and triangle soups

  /** The vertices emitted for the first count triangles of a cell, reversed per triangle when inverse. */
  function TriangleSoup<P>(vl: seq<TmpPoint<P>>, vi: seq<nat>, count: nat, inverse: bool): (r: seq<TmpPoint<P>>)
    requires |vi| >= 3 * count && forall k :: 0 <= k < 3 * count ==> vi[k] < |vl|
    ensures |r| == 3 * count
  {
    if count == 0 then []
    else
      var k := 3 * (count - 1);
      TriangleSoup(vl, vi, count - 1, inverse) +
        if inverse then [vl[vi[k + 2]], vl[vi[k + 1]], vl[vi[k]]]
        else [vl[vi[k]], vl[vi[k + 1]], vl[vi[k + 2]]]
  }

  /**
   * Which entry of a triangle's index triple fills position k of the soup:
   * the same corner, or the mirrored one (2 - corner) when inverse.
   */
  function SoupSlot(k: nat, inverse: bool): (j: nat)
    ensures j / 3 == k / 3
  {
    if inverse then 3 * (k / 3) + 2 - k % 3 else k
  }

  /** Position k of the soup is the vertex that the triangle's index triple names at SoupSlot(k). */
  lemma {:induction false} TriangleSoupAt<P>(vl: seq<TmpPoint<P>>, vi: seq<nat>, count: nat, inverse: bool, k: nat)
    requires |vi| >= 3 * count && forall k :: 0 <= k < 3 * count ==> vi[k] < |vl|
    requires k < 3 * count
    ensures SoupSlot(k, inverse) < 3 * count
    ensures TriangleSoup(vl, vi, count, inverse)[k] == vl[vi[SoupSlot(k, inverse)]]
  {
    if k < 3 * (count - 1) {
      TriangleSoupAt(vl, vi, count - 1, inverse, k);
    } else {
      assert k / 3 == count - 1;
    }
  }

  /** The first count triangles of a soup are the soup of count triangles. */
  lemma {:induction false} TriangleSoupPrefix<P>(vl: seq<TmpPoint<P>>, vi: seq<nat>, count: nat, m: nat, inverse: bool)
    requires m <= count && |vi| >= 3 * count && forall k :: 0 <= k < 3 * count ==> vi[k] < |vl|
    ensures TriangleSoup(vl, vi, count, inverse)[..3 * m] == TriangleSoup(vl, vi, m, inverse)
  {
    if m < count {
      var shorter := TriangleSoup(vl, vi, count - 1, inverse);
      TriangleSoupPrefix(vl, vi, count - 1, m, inverse);
      PrefixOfAppend(shorter, TriangleSoup(vl, vi, count, inverse)[3 * (count - 1)..], 3 * m);
    }
  }

  /** Taking at most |a| elements of a + b takes them from a. */
  lemma PrefixOfAppend<T>(a: seq<T>, b: seq<T>, j: nat)
    requires j <= |a|
    ensures (a + b)[..j] == a[..j]
  {
  }

  /**
   * The inversion flag reverses the corner order of every triangle and
   * changes nothing else.
   */
  lemma {:induction false} TriangleSoupInverse<P>(vl: seq<TmpPoint<P>>, vi: seq<nat>, count: nat, t: nat)
    requires t < count && |vi| >= 3 * count && forall k :: 0 <= k < 3 * count ==> vi[k] < |vl|
    ensures var fwd, rev := TriangleSoup(vl, vi, count, false), TriangleSoup(vl, vi, count, true);
      rev[3 * t] == fwd[3 * t + 2] && rev[3 * t + 1] == fwd[3 * t + 1] && rev[3 * t + 2] == fwd[3 * t]
  {
    if t < count - 1 {
      TriangleSoupInverse(vl, vi, count - 1, t);
    }
  }

  /** Every edge of a table row names one of the given samples. */
  predicate EdgesWithin(edges: seq<bv16>, count: nat)
  {
    forall i :: 0 <= i < |edges| ==> EdgeEndpoints(edges[i]).0 as int < count && EdgeEndpoints(edges[i]).1 as int < count
  }

  /** The row of a nonzero regular case code: its cell data is well formed and its edges name cell corners. */
  lemma RegularRowFacts(t: Tables, code: int)
    requires WellFormed(t) && 0 <= code < 256
    ensures t.regularCellClass[code] < |t.regularCellData|
    ensures var cd := t.regularCellData[t.regularCellClass[code]];
      CellDataWellFormed(cd) && cd.vertexCount <= |t.regularVertexData[code]| && EdgesWithin(t.regularVertexData[code], 8)
  {
  }

  /** The row of a transition case code: its cell data is well formed and its edges name the 13 samples. */
  lemma TransitionRowFacts(t: Tables, code: int)
    requires WellFormed(t) && 0 <= code < 512
    ensures ClassDataIndex(t.transitionCellClass[code]) as int < |t.transitionCellData|
    ensures var cd := t.transitionCellData[ClassDataIndex(t.transitionCellClass[code])];
      CellDataWellFormed(cd) && cd.vertexCount <= |t.transitionVertexData[code]| && EdgesWithin(t.transitionVertexData[code], 13)
  {
  }

  /**
   * The triangle loop of both extractors: triangle t's three vertices go to
   * addTriangle in table order, or reversed when inverse.
   */
  method EmitTriangles<P(==), N>(h: MeshHandler<P, N>, vl: seq<TmpPoint<P>>, vi: seq<nat>, count: nat, inverse: bool)
    requires h.Valid() && |vi| >= 3 * count && forall k :: 0 <= k < 3 * count ==> vi[k] < |vl|
    modifies h
    ensures h.Valid()
    ensures h.points == old(h.points) + TriangleSoup(vl, vi, count, inverse)
    ensures h.ntriang == old(h.ntriang) + count
  {
    ghost var start := h.points;
    var i := 0;
    ghost var t := 0;
    while i < count * 3
      invariant i == 3 * t && t <= count
      invariant h.Valid()
      invariant h.points == start + TriangleSoup(vl, vi, t, inverse)
      invariant h.ntriang == old(h.ntriang) + t
    {
      EmitTriangle(h, vl, vi, i, inverse);
      i := i + 3;
      t := t + 1;
    }
  }

  /** One pass of the triangle loop: the triple at i goes to addTriangle, reversed when inverse. */
  method EmitTriangle<P(==), N>(h: MeshHandler<P, N>, vl: seq<TmpPoint<P>>, vi: seq<nat>, i: nat, inverse: bool)
    requires h.Valid() && i + 2 < |vi| && vi[i] < |vl| && vi[i + 1] < |vl| && vi[i + 2] < |vl|
    modifies h
    ensures h.Valid()
    ensures h.points == old(h.points) +
      if inverse then [vl[vi[i + 2]], vl[vi[i + 1]], vl[vi[i]]] else [vl[vi[i]], vl[vi[i + 1]], vl[vi[i + 2]]]
    ensures h.ntriang == old(h.ntriang) + 1
  {
    var tmp1 := vl[vi[i]];
    var tmp2 := vl[vi[i + 1]];
    var tmp3 := vl[vi[i + 2]];
    if inverse {
      h.AddTriangle(tmp3, tmp2, tmp1);
    } else {
      h.AddTriangle(tmp1, tmp2, tmp3);
    }
  }

  // ---------------------------------------------------------------------------
  // Transition faces

  /** The four corners of the cell that extractTransitionCell receives for a section. */
  function SectionCorners<T>(d: seq<T>, section: nat): (f: seq<T>)
    requires |d| == 8 && section < 6
    ensures |f| == 4
  {
    match section
    case 0 => [d[1], d[0], d[5], d[4]]
    case 1 => [d[2], d[3], d[6], d[7]]
    case 2 => [d[3], d[1], d[7], d[5]]
    case 3 => [d[0], d[2], d[4], d[6]]
    case 4 => [d[3], d[2], d[1], d[0]]
    case _ => [d[6], d[7], d[4], d[5]]
  }

  /** The offset of corner i of a cell with stride s from the cell's origin. */
  function CornerOffset(i: nat, s: int): (o: (int, int, int))
    requires i < 8
  {
    match i
    case 0 => (0, s, 0)
    case 1 => (0, 0, 0)
    case 2 => (s, s, 0)
    case 3 => (s, 0, 0)
    case 4 => (0, s, s)
    case 5 => (0, 0, s)
    case 6 => (s, s, s)
    case _ => (s, 0, s)
  }

  /** Which coordinate a section's face fixes (0 = x, 1 = y, 2 = z) and whether at the far side. */
  function SectionAxis(section: nat): nat requires section < 6 { section / 2 }
  function SectionFar(section: nat): bool requires section < 6 { section % 2 == 1 }

  function Component(o: (int, int, int), axis: nat): int
    requires axis < 3
  {
    if axis == 0 then o.0 else if axis == 1 then o.1 else o.2
  }

  /**
   * The four corners given for a section are distinct corners of the cell,
   * all on the section's face: offset 0 along the face's axis for the near
   * sections (0, 2, 4), offset s for the far ones (1, 3, 5).
   */
  lemma SectionCornersOnFace(section: nat, s: int, k: nat)
    requires section < 6 && k < 4
    ensures var idx := SectionCorners([0, 1, 2, 3, 4, 5, 6, 7], section)[k];
      0 <= idx < 8 &&
      Component(CornerOffset(idx, s), SectionAxis(section)) == if SectionFar(section) then s else 0
    ensures var f := SectionCorners([0, 1, 2, 3, 4, 5, 6, 7], section); f[0] != f[1] && f[0] != f[2] && f[0] != f[3] && f[1] != f[2] && f[1] != f[3] && f[2] != f[3]
  {
  }

  /** The midpoints of samples that share a coordinate share it too. */
  lemma MediumAddrKeepsShared(a1: PointAddr, a2: PointAddr)
    ensures a1.x == a2.x ==> MediumAddr(a1, a2).x == a1.x
    ensures a1.y == a2.y ==> MediumAddr(a1, a2).y == a1.y
    ensures a1.z == a2.z ==> MediumAddr(a1, a2).z == a1.z
  {
  }

  /**
   * An odd distance is halved toward the first argument: the sample between
   * x = 3 and x = 0 that extractTransitionCell reads as
   * clcMediumAddr(d2.adr, d0.adr) with d2 at 3 is x = 2.
   */
  lemma MediumAddrOddDistance()
    ensures MediumAddr(PointAddr(3, 0, 0), PointAddr(0, 0, 0)).x == 2
    ensures MediumAddr(PointAddr(0, 0, 0), PointAddr(3, 0, 0)).x == 1
  {
    MediumCoordBetween(3, 0);
    MediumCoordBetween(0, 3);
  }

  /** The corners of the cell whose far corner is (x, y, z) are the cache's corners in reverse order. */
  lemma CellCornersAreCacheCorners(x: nat, y: nat, z: nat, s: nat, i: nat)
    requires i < 8 && s > 0
    ensures var o := CornerOffset(i, s); var c := CacheCorners(x + s, y + s, z + s, s)[7 - i];
      c == Coord(x + o.0, y + o.1, z + o.2)
  {
  }

  /**
   * The substance cache and the extractor agree: with the corner densities
   * read back from bytes, a cell straddles the cache's isolevel exactly when
   * its regular case code is neither 0 (nothing inside) nor 255 (everything
   * inside).
   */
  lemma {:induction false} StraddleIffMixedCode(bytes: seq<byte>)
    requires |bytes| == 8
    ensures var below := [bytes[7] <= IsoByte, bytes[6] <= IsoByte, bytes[5] <= IsoByte, bytes[4] <= IsoByte,
                          bytes[3] <= IsoByte, bytes[2] <= IsoByte, bytes[1] <= IsoByte, bytes[0] <= IsoByte];
      (!AllAbove(bytes) && !AllAtOrBelow(bytes)) <==> RegularCaseCode(below) != 0 && RegularCaseCode(below) != 255
  {
    var below := [bytes[7] <= IsoByte, bytes[6] <= IsoByte, bytes[5] <= IsoByte, bytes[4] <= IsoByte,
                  bytes[3] <= IsoByte, bytes[2] <= IsoByte, bytes[1] <= IsoByte, bytes[0] <= IsoByte];
    RegularCodeExtremes(below);
    assert forall i :: 0 <= i < 8 ==> below[i] == (bytes[7 - i] <= IsoByte);
    if AllAbove(bytes) {
      assert forall i :: 0 <= i < 8 ==> !below[i];
    }
    if AllAtOrBelow(bytes) {
      assert forall i :: 0 <= i < 8 ==> below[i];
    }
    if forall i :: 0 <= i < 8 ==> !below[i] {
      assert forall j :: 0 <= j < 8 ==> bytes[j] > IsoByte by {
        forall j | 0 <= j < 8 ensures bytes[j] > IsoByte {
          assert !below[7 - j];
        }
      }
    }
    if forall i :: 0 <= i < 8 ==> below[i] {
      assert forall j :: 0 <= j < 8 ==> bytes[j] <= IsoByte by {
        forall j | 0 <= j < 8 ensures bytes[j] <= IsoByte {
          assert below[7 - j];
        }
      }
    }
  }

  // ---------------------------------------------------------------------------
  // The extractor

  // ---------------------------------------------------------------------------
  // What an extractor has emitted

  /** What a LOD section's main buffer and its six transition buffers hold. */
  datatype SectionOutput<P> = SectionOutput(main: seq<P>, faces: seq<seq<P>>)
  {
    ghost predicate Wf() { |faces| == 6 }

    /** This output followed by another one, buffer by buffer. */
    function Then(next: SectionOutput<P>): (r: SectionOutput<P>)
      requires Wf() && next.Wf()
      ensures r.Wf()
    {
      SectionOutput(main + next.main, seq(6, j requires 0 <= j < 6 => faces[j] + next.faces[j]))
    }
  }

  /** Two outputs compose buffer by buffer. */
  lemma ThenParts<P>(a: SectionOutput<P>, b: SectionOutput<P>, r: SectionOutput<P>)
    requires a.Wf() && b.Wf() && r.Wf() && r.main == a.main + b.main
    requires forall j :: 0 <= j < 6 ==> r.faces[j] == a.faces[j] + b.faces[j]
    ensures r == a.Then(b)
  {
  }

  /** The output of a section nothing has been emitted into. */
  function NoOutput<P>(): (r: SectionOutput<P>)
    ensures r.Wf()
  {
    SectionOutput([], [[], [], [], [], [], []])
  }

  /** Nothing emitted is a unit of Then on either side. */
  lemma ThenNone<P>(a: SectionOutput<P>)
    requires a.Wf()
    ensures a.Then(NoOutput()) == a && NoOutput().Then(a) == a
  {
    assert a.main + [] == a.main;
    ThenParts(a, NoOutput(), a);
    ThenParts(NoOutput(), a, a);
  }

  /** Emitting in three steps does not depend on how the steps are grouped. */
  lemma ThenAssoc<P>(a: SectionOutput<P>, b: SectionOutput<P>, c: SectionOutput<P>)
    requires a.Wf() && b.Wf() && c.Wf()
    ensures a.Then(b).Then(c) == a.Then(b.Then(c))
  {
    assert a.main + b.main + c.main == a.main + (b.main + c.main);
    forall j | 0 <= j < 6
      ensures a.Then(b).Then(c).faces[j] == a.Then(b.Then(c)).faces[j]
    {
      assert a.faces[j] + b.faces[j] + c.faces[j] == a.faces[j] + (b.faces[j] + c.faces[j]);
    }
    ThenParts(a, b.Then(c), a.Then(b).Then(c));
  }

  /** TMeshLodSection: a LOD's main mesh and its six transition meshes, as values. */
  datatype LodSection<P, N> = LodSection(main: ProcMeshSection<P, N>, transition: seq<ProcMeshSection<P, N>>)
  {
    ghost predicate Wf()
    {
      |transition| == 6 && main.Indexed() && forall j :: 0 <= j < 6 ==> transition[j].Indexed()
    }

    /** The positions the seven meshes draw. */
    ghost function Soup(): (o: SectionOutput<P>)
      requires Wf()
      ensures o.Wf()
    {
      SectionOutput(main.Positions(), seq(6, j requires 0 <= j < 6 => transition[j].Positions()))
    }
  }

  /** A section's soup is determined buffer by buffer. */
  lemma SoupParts<P, N>(s: LodSection<P, N>, o: SectionOutput<P>)
    requires s.Wf() && o.Wf() && o.main == s.main.Positions()
    requires forall j :: 0 <= j < 6 ==> o.faces[j] == s.transition[j].Positions()
    ensures s.Soup() == o
  {
  }

  /** The positions of an output of extracted vertices, buffer by buffer. */
  function OutputPositions<P>(o: SectionOutput<TmpPoint<P>>): (r: SectionOutput<P>)
    requires o.Wf()
    ensures r.Wf() && r.main == Positions(o.main) && forall j :: 0 <= j < 6 ==> r.faces[j] == Positions(o.faces[j])
  {
    SectionOutput(Positions(o.main), seq(6, j requires 0 <= j < 6 => Positions(o.faces[j])))
  }

  /** A LOD section nothing was generated into. */
  function EmptySection<P, N>(): (s: LodSection<P, N>)
    ensures s.Wf() && s.Soup() == NoOutput()
  {
    var e := ProcMeshSection([], []);
    LodSection(e, [e, e, e, e, e, e])
  }

  class VoxelMeshExtractor<P(==), N> {
    const grid: GridView
    const tables: Tables
    /** voxel_data_param.lod, step() and bGenerateLOD. */
    const lod: nat
    const step: int
    const generateLOD: bool
    /** voxelIndexToVector. */
    const toVector: (int, int, int) -> P
    /** vertexInterpolation(p1, p2, d1, d2). */
    const interpolate: (P, P, real, real) -> P
    /** |a - v| / |a - b| for distanceRatio(a, b, v). */
    const distanceRatio: (P, P, P) -> real
    /** The address materialCalculation2 rounds to between two samples. */
    const coarseAddr: (Point<P>, Point<P>) -> PointAddr
    const main: MeshHandler<P, N>
    const transition: seq<MeshHandler<P, N>>
    ghost const Repr: set<object>

    ghost predicate Valid()
      reads Repr
    {
      && grid.Wf()
      && WellFormed(tables)
      && |transition| == 6
      && Repr == {main} + (set i | 0 <= i < 6 :: transition[i])
      && main.Valid()
      && (forall i :: 0 <= i < 6 ==> transition[i].Valid() && transition[i] != main)
      && (forall i, j :: 0 <= i < j < 6 ==> transition[i] != transition[j])
    }

    constructor (grid: GridView, tables: Tables, lod: nat, step: int, generateLOD: bool,
                 toVector: (int, int, int) -> P, interpolate: (P, P, real, real) -> P,
                 distanceRatio: (P, P, P) -> real, coarseAddr: (Point<P>, Point<P>) -> PointAddr,
                 faceNormal: (P, P, P) -> N, average: (N, N) -> N)
      requires grid.Wf() && WellFormed(tables)
      ensures Valid() && fresh(Repr)
      ensures this.grid == grid && this.tables == tables && this.lod == lod && this.step == step
      ensures this.generateLOD == generateLOD && this.toVector == toVector && this.interpolate == interpolate
      ensures this.distanceRatio == distanceRatio && this.coarseAddr == coarseAddr
      ensures main.points == [] && forall i :: 0 <= i < 6 ==> transition[i].points == []
    {
      this.grid := grid;
      this.tables := tables;
      this.lod := lod;
      this.step := step;
      this.generateLOD := generateLOD;
      this.toVector := toVector;
      this.interpolate := interpolate;
      this.distanceRatio := distanceRatio;
      this.coarseAddr := coarseAddr;
      var m := new MeshHandler(faceNormal, average);
      var hs: seq<MeshHandler<P, N>> := [];
      var i := 0;
      while i < 6
        invariant 0 <= i <= 6 && |hs| == i
        invariant fresh(m) && m.Valid() && m.points == []
        invariant forall k :: 0 <= k < i ==> fresh(hs[k]) && hs[k].Valid() && hs[k].points == [] && hs[k] != m
        invariant forall k, l :: 0 <= k < l < i ==> hs[k] != hs[l]
      {
        var h := new MeshHandler(faceNormal, average);
        hs := hs + [h];
        i := i + 1;
      }
      main := m;
      transition := hs;
      Repr := {m} + (set k | 0 <= k < 6 :: hs[k]);
    }

    /** getVoxelpoint(x, y, z): address, position, density and material of a sample. */
    function GetVoxelPoint(x: byte, y: byte, z: byte): (p: Point<P>)
      requires grid.Wf()
    {
      Point(PointAddr(x, y, z), toVector(x, y, z), grid.Density(x, y, z), grid.Material(x, y, z))
    }

    /**
     * vertexClc: the interpolated position and the material weight, by
     * distance at LOD 0 and by the material at the rounded address otherwise.
     */
    function VertexClc(p1: Point<P>, p2: Point<P>): (t: TmpPoint<P>)
      requires grid.Wf()
      ensures t.v == interpolate(p1.pos, p2.pos, p1.density, p2.density)
      ensures lod != 0 ==> t.matWeight == CoarseWeight(grid.Material(coarseAddr(p1, p2).x, coarseAddr(p1, p2).y, coarseAddr(p1, p2).z))
      ensures lod == 0 && MaterialWeightRule(p1.material, p2.material).Constant? ==> t.matWeight == MaterialWeightRule(p1.material, p2.material).w
      ensures lod == 0 && MaterialWeightRule(p1.material, p2.material) == FromFirst ==> t.matWeight == distanceRatio(p1.pos, p2.pos, t.v)
      ensures lod == 0 && MaterialWeightRule(p1.material, p2.material) == FromSecond ==> t.matWeight == distanceRatio(p2.pos, p1.pos, t.v)
    {
      var v := interpolate(p1.pos, p2.pos, p1.density, p2.density);
      if lod == 0 then
        match MaterialWeightRule(p1.material, p2.material)
        case Constant(w) => TmpPoint(v, w)
        case FromFirst => TmpPoint(v, distanceRatio(p1.pos, p2.pos, v))
        case FromSecond => TmpPoint(v, distanceRatio(p2.pos, p1.pos, v))
      else
        var a := coarseAddr(p1, p2);
        TmpPoint(v, CoarseWeight(grid.Material(a.x, a.y, a.z)))
    }

    /** The first k vertices of a cell: edge i's endpoints feed vertexClc. */
    function CellVertices(d: seq<Point<P>>, edges: seq<bv16>, k: nat): (r: seq<TmpPoint<P>>)
      requires grid.Wf() && k <= |edges| && EdgesWithin(edges, |d|)
      ensures |r| == k
      ensures forall i :: 0 <= i < k ==>
        r[i] == VertexClc(d[EdgeEndpoints(edges[i]).0 as int], d[EdgeEndpoints(edges[i]).1 as int])
    {
      if k == 0 then []
      else
        var (v0, v1) := EdgeEndpoints(edges[k - 1]);
        CellVertices(d, edges, k - 1) + [VertexClc(d[v0 as int], d[v1 as int])]
    }

    /** The triangles of one table row: the row's vertices, then its triangles in table order or reversed. */
    function RowSoup(d: seq<Point<P>>, edges: seq<bv16>, cd: CellData, inverse: bool): seq<TmpPoint<P>>
      requires grid.Wf() && CellDataWellFormed(cd) && cd.vertexCount <= |edges| && EdgesWithin(edges, |d|)
    {
      TriangleSoup(CellVertices(d, edges, cd.vertexCount), cd.vertexIndex, cd.triangleCount, inverse)
    }

    /**
     * Every vertex of a row's triangles is vertexClc on the two samples of a
     * table edge: the edge that the triangle's index triple names at
     * SoupSlot(k). At LOD 0 its weight therefore follows materialCalculation
     * on those samples, and at a coarse LOD materialCalculation2.
     */
    lemma RowSoupAt(d: seq<Point<P>>, edges: seq<bv16>, cd: CellData, inverse: bool, k: nat)
      requires grid.Wf() && CellDataWellFormed(cd) && cd.vertexCount <= |edges| && EdgesWithin(edges, |d|)
      requires k < |RowSoup(d, edges, cd, inverse)|
      ensures SoupSlot(k, inverse) < 3 * cd.triangleCount
      ensures var e := EdgeEndpoints(edges[cd.vertexIndex[SoupSlot(k, inverse)]]);
        RowSoup(d, edges, cd, inverse)[k] == VertexClc(d[e.0 as int], d[e.1 as int])
    {
      TriangleSoupAt(CellVertices(d, edges, cd.vertexCount), cd.vertexIndex, cd.triangleCount, inverse, k);
    }

    /** Builds a row's vertex list and adds its triangles to a handler. */
    method EmitRow(h: MeshHandler<P, N>, d: seq<Point<P>>, edges: seq<bv16>, cd: CellData, inverse: bool)
      requires grid.Wf() && CellDataWellFormed(cd) && cd.vertexCount <= |edges| && EdgesWithin(edges, |d|)
      requires h.Valid()
      modifies h
      ensures h.Valid()
      ensures h.points == old(h.points) + RowSoup(d, edges, cd, inverse)
    {
      var vertexList := BuildVertexList(d, edges, cd.vertexCount);
      assert vertexList == CellVertices(d, edges, cd.vertexCount);
      EmitTriangles(h, vertexList, cd.vertexIndex, cd.triangleCount, inverse);
    }

    /** The eight corners generateCell reads for the cell at (x, y, z). */
    function CellCorners(x: int, y: int, z: int): (d: seq<Point<P>>)
      requires grid.Wf()
      ensures |d| == 8
    {
      var s := step;
      [GetVoxelPoint(ToUint8(x), ToUint8(y + s), ToUint8(z)),
       GetVoxelPoint(ToUint8(x), ToUint8(y), ToUint8(z)),
       GetVoxelPoint(ToUint8(x + s), ToUint8(y + s), ToUint8(z)),
       GetVoxelPoint(ToUint8(x + s), ToUint8(y), ToUint8(z)),
       GetVoxelPoint(ToUint8(x), ToUint8(y + s), ToUint8(z + s)),
       GetVoxelPoint(ToUint8(x), ToUint8(y), ToUint8(z + s)),
       GetVoxelPoint(ToUint8(x + s), ToUint8(y + s), ToUint8(z + s)),
       GetVoxelPoint(ToUint8(x + s), ToUint8(y), ToUint8(z + s))]
    }

    /** The triangles extractRegularCell emits for the corners d. */
    function RegularSoup(d: seq<Point<P>>): seq<TmpPoint<P>>
      requires grid.Wf() && WellFormed(tables) && |d| == 8
    {
      var code := RegularCaseCode(RegularBelow(d));
      RegularCodeBits(RegularBelow(d));
      if code == 0 then []
      else
        RowSoup(d, tables.regularVertexData[code as int], tables.regularCellData[tables.regularCellClass[code as int]], false)
    }

    /** A cell with no corner below the isolevel emits no regular triangles. */
    lemma RegularSoupEmpty(d: seq<Point<P>>)
      requires grid.Wf() && WellFormed(tables) && |d| == 8
      requires forall i :: 0 <= i < 8 ==> !Below(d[i])
      ensures RegularSoup(d) == []
    {
      RegularCodeExtremes(RegularBelow(d));
    }

    /** The vertex-list loop of both extractors: vertexClc on the endpoints of each of the first count edges. */
    method BuildVertexList(d: seq<Point<P>>, edges: seq<bv16>, count: nat) returns (vertexList: seq<TmpPoint<P>>)
      requires grid.Wf() && count <= |edges| && EdgesWithin(edges, |d|)
      ensures |vertexList| == count
      ensures forall i :: 0 <= i < count ==>
        vertexList[i] == VertexClc(d[EdgeEndpoints(edges[i]).0 as int], d[EdgeEndpoints(edges[i]).1 as int])
    {
      vertexList := [];
      var i := 0;
      while i < count
        invariant 0 <= i <= count
        invariant vertexList == CellVertices(d, edges, i)
      {
        var edgeCode := edges[i];
        var v0 := (edgeCode >> 4) & 0x0F;
        var v1 := edgeCode & 0x0F;
        var tp := VertexClc(d[v0 as int], d[v1 as int]);
        vertexList := vertexList + [tp];
        i := i + 1;
      }
    }

    /** A nonzero regular case code selects a well-formed row, and the soup is that row's. */
    lemma RegularSoupRow(d: seq<Point<P>>)
      requires grid.Wf() && WellFormed(tables) && |d| == 8
      requires RegularCaseCode(RegularBelow(d)) != 0
      ensures var code := RegularCaseCode(RegularBelow(d)) as int;
        && code < 256 && tables.regularCellClass[code] < |tables.regularCellData|
        && var cd := tables.regularCellData[tables.regularCellClass[code]];
        && CellDataWellFormed(cd) && cd.vertexCount <= |tables.regularVertexData[code]|
        && EdgesWithin(tables.regularVertexData[code], 8)
        && RegularSoup(d) == RowSoup(d, tables.regularVertexData[code], cd, false)
    {
      RegularCodeBits(RegularBelow(d));
      RegularRowFacts(tables, RegularCaseCode(RegularBelow(d)) as int);
    }

    /**
     * extractRegularCell: computes the case code, and unless it is 0 builds
     * the cell's vertex list and adds its triangles to the main handler.
     */
    method ExtractRegularCell(d: seq<Point<P>>)
      requires grid.Wf() && WellFormed(tables) && main.Valid() && |d| == 8
      modifies main
      ensures main.Valid()
      ensures main.points == old(main.points) + RegularSoup(d)
    {
      var caseCode := RegularCaseCode(RegularBelow(d));
      if caseCode == 0 {
        return;
      }
      RegularSoupRow(d);
      var c := tables.regularCellClass[caseCode as int];
      var cd := tables.regularCellData[c];
      var edges := tables.regularVertexData[caseCode as int];
      EmitRow(main, d, edges, cd, false);
    }

    /** The thirteen samples of a transition cell with face corners d0, d2, d6, d8. */
    function TransitionPoints(d0: Point<P>, d2: Point<P>, d6: Point<P>, d8: Point<P>): (d: seq<Point<P>>)
      requires grid.Wf()
      ensures |d| == 13
    {
      var m1 := MediumAddr(d2.adr, d0.adr);
      var a3 := MediumAddr(d6.adr, d0.adr);
      var a5 := MediumAddr(d8.adr, d2.adr);
      var m4 := MediumAddr(a5, a3);
      var m7 := MediumAddr(d8.adr, d6.adr);
      [d0, GetVoxelPoint(m1.x, m1.y, m1.z), d2,
       GetVoxelPoint(a3.x, a3.y, a3.z), GetVoxelPoint(m4.x, m4.y, m4.z), GetVoxelPoint(a5.x, a5.y, a5.z),
       d6, GetVoxelPoint(m7.x, m7.y, m7.z), d8,
       d0, d2, d6, d8]
    }

    /** The triangles extractTransitionCell emits for the thirteen samples d. */
    function TransitionSoup(d: seq<Point<P>>): seq<TmpPoint<P>>
      requires grid.Wf() && WellFormed(tables) && |d| == 13
    {
      var code := TransitionCaseCode(TransitionBelow(d));
      TransitionCodeDecodes(TransitionBelow(d));
      if code == 0 then []
      else
        var classIndex := tables.transitionCellClass[code];
        RowSoup(d, tables.transitionVertexData[code], tables.transitionCellData[ClassDataIndex(classIndex)], ClassInverse(classIndex))
    }

    /** A nonzero transition case code selects a well-formed row, and the soup is that row's. */
    lemma TransitionSoupRow(d: seq<Point<P>>)
      requires grid.Wf() && WellFormed(tables) && |d| == 13
      requires TransitionCaseCode(TransitionBelow(d)) != 0
      ensures var code := TransitionCaseCode(TransitionBelow(d));
        && 0 < code < 512 && ClassDataIndex(tables.transitionCellClass[code]) as int < |tables.transitionCellData|
        && var cd := tables.transitionCellData[ClassDataIndex(tables.transitionCellClass[code])];
        && CellDataWellFormed(cd) && cd.vertexCount <= |tables.transitionVertexData[code]|
        && EdgesWithin(tables.transitionVertexData[code], 13)
        && TransitionSoup(d) == RowSoup(d, tables.transitionVertexData[code], cd, ClassInverse(tables.transitionCellClass[code]))
    {
      TransitionCodeDecodes(TransitionBelow(d));
      TransitionRowFacts(tables, TransitionCaseCode(TransitionBelow(d)));
    }

    /**
     * extractTransitionCell: samples the face, computes the 9-bit case code,
     * and unless it is 0 adds the cell's triangles to the section's handler,
     * each reversed when the class byte's bit 7 is set.
     */
    method ExtractTransitionCell(meshHandler: MeshHandler<P, N>, d0: Point<P>, d2: Point<P>, d6: Point<P>, d8: Point<P>)
      requires grid.Wf() && WellFormed(tables) && meshHandler.Valid()
      modifies meshHandler
      ensures meshHandler.Valid()
      ensures meshHandler.points == old(meshHandler.points) + TransitionSoup(TransitionPoints(d0, d2, d6, d8))
    {
      var d := TransitionPoints(d0, d2, d6, d8);
      var caseCode := ComputeTransitionCaseCode(TransitionBelow(d));
      if caseCode == 0 {
        return;
      }
      TransitionSoupRow(d);
      var classIndex := tables.transitionCellClass[caseCode];
      var inverse := ClassInverse(classIndex);
      var cellData := tables.transitionCellData[ClassDataIndex(classIndex)];
      var edges := tables.transitionVertexData[caseCode];
      EmitRow(meshHandler, d, edges, cellData, inverse);
    }

    /** Whether generateCell at (x, y, z) emits the transition cell of a section. */
    predicate TransitionActive(x: int, y: int, z: int, section: nat)
      requires section < 6
    {
      var e := grid.num - step - 1;
      var c := if SectionAxis(section) == 0 then x else if SectionAxis(section) == 1 then y else z;
      generateLOD && lod > 0 && c == (if SectionFar(section) then e else 0)
    }

    /** The transition triangles generateCell emits into a section's handler. */
    function SectionSoup(d: seq<Point<P>>, x: int, y: int, z: int, section: nat): seq<TmpPoint<P>>
      requires grid.Wf() && WellFormed(tables) && |d| == 8 && section < 6
    {
      if TransitionActive(x, y, z, section) then
        var f := SectionCorners(d, section);
        TransitionSoup(TransitionPoints(f[0], f[1], f[2], f[3]))
      else []
    }

    /**
     * One of generateCell's face tests: when the cell lies on the section's
     * face, the section's four cell corners, in the order SectionCorners
     * gives, go to extractTransitionCell with the section's handler.
     */
    method ExtractFace(onFace: bool, section: nat, x: int, y: int, z: int, d: seq<Point<P>>)
      requires Valid() && section < 6 && |d| == 8
      requires generateLOD && lod > 0 && (onFace <==> TransitionActive(x, y, z, section))
      modifies transition[section]
      ensures Valid()
      ensures transition[section].points == old(transition[section].points) + SectionSoup(d, x, y, z, section)
      ensures forall j :: 0 <= j < 6 && j != section ==> transition[j].points == old(transition[j].points)
    {
      if onFace {
        var f := SectionCorners(d, section);
        ExtractTransitionCell(transition[section], f[0], f[1], f[2], f[3]);
      }
    }

    /**
     * The LOD part of generateCell: at a coarse LOD with LOD generation on,
     * the transition cell of every chunk face the cell lies on.
     */
    method ExtractTransitionCells(x: int, y: int, z: int, d: seq<Point<P>>)
      requires Valid() && |d| == 8
      modifies set j | 0 <= j < 6 :: transition[j]
      ensures Valid()
      ensures forall j :: 0 <= j < 6 ==> transition[j].points == old(transition[j].points) + SectionSoup(d, x, y, z, j)
    {
      if generateLOD {
        if lod > 0 {
          var e := grid.num - step - 1;
          for section := 0 to 6
            invariant Valid()
            invariant forall j :: 0 <= j < section ==>
              transition[j].points == old(transition[j].points) + SectionSoup(d, x, y, z, j)
            invariant forall j :: section <= j < 6 ==> transition[j].points == old(transition[j].points)
          {
            var c := if SectionAxis(section) == 0 then x else if SectionAxis(section) == 1 then y else z;
            ExtractFace(c == (if SectionFar(section) then e else 0), section, x, y, z, d);
          }
        }
      }
    }

    /**
     * generateCell: reads the cell's eight corners, emits the regular cell
     * and then the transition cells.
     */
    method GenerateCell(x: int, y: int, z: int)
      requires Valid()
      modifies Repr
      ensures Valid()
      ensures main.points == old(main.points) + RegularSoup(CellCorners(x, y, z))
      ensures forall j :: 0 <= j < 6 ==> transition[j].points == old(transition[j].points) + SectionSoup(CellCorners(x, y, z), x, y, z, j)
      ensures Output() == old(Output()).Then(CellOutput(x, y, z))
    {
      ghost var before := Output();
      var s := step;
      var d0 := GetVoxelPoint(ToUint8(x), ToUint8(y + s), ToUint8(z));
      var d1 := GetVoxelPoint(ToUint8(x), ToUint8(y), ToUint8(z));
      var d2 := GetVoxelPoint(ToUint8(x + s), ToUint8(y + s), ToUint8(z));
      var d3 := GetVoxelPoint(ToUint8(x + s), ToUint8(y), ToUint8(z));
      var d4 := GetVoxelPoint(ToUint8(x), ToUint8(y + s), ToUint8(z + s));
      var d5 := GetVoxelPoint(ToUint8(x), ToUint8(y), ToUint8(z + s));
      var d6 := GetVoxelPoint(ToUint8(x + s), ToUint8(y + s), ToUint8(z + s));
      var d7 := GetVoxelPoint(ToUint8(x + s), ToUint8(y), ToUint8(z + s));
      var d := [d0, d1, d2, d3, d4, d5, d6, d7];
      assert d == CellCorners(x, y, z);

      ExtractRegularCell(d);
      ExtractTransitionCells(x, y, z, d);
      CellOutputParts(x, y, z);
      ThenParts(before, CellOutput(x, y, z), Output());
    }

    /** What the section's seven buffers hold. */
    ghost function Output(): (o: SectionOutput<TmpPoint<P>>)
      requires Valid()
      reads Repr
      ensures o.Wf() && o.main == main.points && forall j :: 0 <= j < 6 ==> o.faces[j] == transition[j].points
    {
      SectionOutput(main.points, [transition[0].points, transition[1].points, transition[2].points,
                                     transition[3].points, transition[4].points, transition[5].points])
    }

    /** The seven meshes the extractor has filled. */
    function Section(): (s: LodSection<P, N>)
      requires Valid()
      reads Repr
      ensures s.Wf() && s.Soup() == OutputPositions(Output())
    {
      var s := LodSection(main.Section(), seq(6, j requires 0 <= j < 6 && transition[j].Valid() reads Repr => transition[j].Section()));
      SoupParts(s, OutputPositions(Output()));
      s
    }

    /**
     * What generateCell(x, y, z) adds to the seven buffers: what an empty
     * visit leaves, followed by the cell's triangles. (Going through Visits
     * puts this function in Visits' recursion, so that a proof about a
     * visiting order does not unfold every cell's triangles.)
     */
    ghost function CellOutput(x: int, y: int, z: int): (o: SectionOutput<TmpPoint<P>>)
      requires grid.Wf() && WellFormed(tables)
      ensures o.Wf()
      decreases 0, 1
    {
      var d := CellCorners(x, y, z);
      Visits([]).Then(SectionOutput(RegularSoup(d), seq(6, j requires 0 <= j < 6 => SectionSoup(d, x, y, z, j))))
    }

    lemma CellOutputParts(x: int, y: int, z: int)
      requires grid.Wf() && WellFormed(tables)
      ensures CellOutput(x, y, z).main == RegularSoup(CellCorners(x, y, z))
      ensures forall j :: 0 <= j < 6 ==> CellOutput(x, y, z).faces[j] == SectionSoup(CellCorners(x, y, z), x, y, z, j)
    {
    }

    /** What generateCell, called on each cell of the list in turn, emits into empty buffers. */
    ghost function Visits(cells: seq<Coord>): (o: SectionOutput<TmpPoint<P>>)
      requires grid.Wf() && WellFormed(tables)
      ensures o.Wf()
      decreases |cells|, 0
    {
      if cells == [] then NoOutput()
      else
        var c := cells[|cells| - 1];
        Visits(cells[..|cells| - 1]).Then(CellOutput(c.x, c.y, c.z))
    }

    /** Visiting one list of cells and then another emits the two outputs in turn. */
    lemma {:induction false} VisitsAppend(a: seq<Coord>, b: seq<Coord>)
      requires grid.Wf() && WellFormed(tables)
      ensures Visits(a + b) == Visits(a).Then(Visits(b))
      decreases |b|
    {
      if b == [] {
        assert a + b == a;
        ThenNone(Visits(a));
      } else {
        var p, c := b[..|b| - 1], b[|b| - 1];
        assert a + b == (a + p) + [c];
        VisitsSnoc(a + p, c);
        VisitsAppend(a, p);
        ThenAssoc(Visits(a), Visits(p), CellOutput(c.x, c.y, c.z));
      }
    }

    /** Visiting a cell first emits its triangles before those of the rest. */
    lemma VisitsCons(c: Coord, rest: seq<Coord>)
      requires grid.Wf() && WellFormed(tables)
      ensures Visits([c] + rest) == CellOutput(c.x, c.y, c.z).Then(Visits(rest))
    {
      VisitsAppend([c], rest);
      VisitsSnoc([], c);
      assert [] + [c] == [c];
      ThenNone(CellOutput(c.x, c.y, c.z));
    }

    /** Visiting one more cell extends the output by that cell's triangles. */
    lemma VisitsSnoc(cells: seq<Coord>, c: Coord)
      requires grid.Wf() && WellFormed(tables)
      ensures Visits(cells + [c]) == Visits(cells).Then(CellOutput(c.x, c.y, c.z))
    {
      assert (cells + [c])[..|cells|] == cells;
    }
  }
}
