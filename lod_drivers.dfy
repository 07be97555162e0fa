/**
 * polygonizeVoxelGridWithLOD, which drives one extractor per LOD through a
 * single scan of the lattice, and sandboxVoxelGenerateMesh, which picks one
 * of the four drivers.
 *
 * The extractors of a scan form a family: each one valid, their buffers
 * pairwise distinct. What the family has emitted is the sequence of their
 * outputs, and a scan over a list of cells adds to extractor l the output
 * of the cells of that list that lie on the stride of 2^l.
 */
module LodDrivers {
  import opened Lattice
  import opened VoxelGrid
  import opened CaseCodes
  import opened Welding
  import opened Extraction
  import opened VisitOrder
  import opened Drivers

  // ---------------------------------------------------------------------------
  // A family of extractors, one per LOD

  /** Every buffer of every extractor of the family. */
  ghost function FamilyRepr<P, N>(exs: seq<VoxelMeshExtractor<P, N>>): set<object>
  {
    set l, o | 0 <= l < |exs| && o in exs[l].Repr :: o
  }

  /** The extractors of the family are valid and share no buffer. */
  ghost predicate Family<P, N>(exs: seq<VoxelMeshExtractor<P, N>>)
    reads FamilyRepr(exs)
  {
    && (forall l :: 0 <= l < |exs| ==> exs[l].Valid())
    && (forall l, m :: 0 <= l < m < |exs| ==> exs[l].Repr !! exs[m].Repr)
  }

  /** What each extractor of the family has emitted. */
  ghost function Outputs<P, N>(exs: seq<VoxelMeshExtractor<P, N>>): (os: seq<SectionOutput<TmpPoint<P>>>)
    requires Family(exs)
    reads FamilyRepr(exs)
    ensures |os| == |exs| && forall l :: 0 <= l < |exs| ==> os[l] == exs[l].Output()
  {
    seq(|exs|, l requires 0 <= l < |exs| && Family(exs) reads FamilyRepr(exs) => exs[l].Output())
  }

  ghost predicate AllWf<P>(os: seq<SectionOutput<TmpPoint<P>>>)
  {
    forall l :: 0 <= l < |os| ==> os[l].Wf()
  }

  // ---------------------------------------------------------------------------
  // The scan

  /** Extractor i's turn in the innermost loop: s = 1 << i, and generateCell if the cell is on that stride. */
  method LodStep<P(==), N>(exs: seq<VoxelMeshExtractor<P, N>>, i: nat, x: nat, y: nat, z: nat)
    requires Family(exs) && i < |exs|
    modifies exs[i].Repr
    ensures Family(exs)
    ensures exs[i].Output() == old(exs[i].Output()).Then(exs[i].Visits(OnLodStride([Coord(x, y, z)], i)))
    ensures forall l :: 0 <= l < |exs| && l != i ==> exs[l].Output() == old(exs[l].Output())
  {
    var s := Pow2(i);
    OnLodStrideOne(Coord(x, y, z), i);
    if x % s == 0 && y % s == 0 && z % s == 0 {
      Generate(exs[i], x, y, z);
    } else {
      ThenNone(exs[i].Output());
    }
    forall l | 0 <= l < |exs| && l != i
      ensures exs[l].Valid() && exs[l].Output() == old(exs[l].Output())
    {
      assert unchanged(exs[l].Repr);
    }
  }

  /** One pass of the innermost loop, keeping count of which extractors have had their turn. */
  method LodNext<P(==), N>(exs: seq<VoxelMeshExtractor<P, N>>, i: nat, x: nat, y: nat, z: nat,
                           ghost before: seq<SectionOutput<TmpPoint<P>>>) returns (i': nat)
    requires Family(exs) && i < |exs| == |before| && AllWf(before)
    requires forall l :: 0 <= l < i ==> exs[l].Output() == before[l].Then(exs[l].Visits(OnLodStride([Coord(x, y, z)], l)))
    requires forall l :: i <= l < |exs| ==> exs[l].Output() == before[l]
    modifies exs[i].Repr
    ensures i' == i + 1 && Family(exs)
    ensures forall l :: 0 <= l < i' ==> exs[l].Output() == before[l].Then(exs[l].Visits(OnLodStride([Coord(x, y, z)], l)))
    ensures forall l :: i' <= l < |exs| ==> exs[l].Output() == before[l]
  {
    i' := i + 1;
    LodStep(exs, i, x, y, z);
    forall l | 0 <= l < |exs|
      ensures l < i' ==> exs[l].Output() == before[l].Then(exs[l].Visits(OnLodStride([Coord(x, y, z)], l)))
      ensures i' <= l ==> exs[l].Output() == before[l]
    {
      if l != i {
        assert exs[l].Output() == old(exs[l].Output());
      }
    }
  }

  /**
   * The innermost loop of polygonizeVoxelGridWithLOD: for each LOD i, with
   * s = 1 << i, generateCell(x, y, z) on extractor i when x, y and z are
   * all multiples of s.
   */
  method GenerateLods<P(==), N>(exs: seq<VoxelMeshExtractor<P, N>>, x: nat, y: nat, z: nat)
    requires Family(exs)
    modifies FamilyRepr(exs)
    ensures Family(exs)
    ensures forall l :: 0 <= l < |exs| ==> exs[l].Output() == old(exs[l].Output()).Then(exs[l].Visits(OnLodStride([Coord(x, y, z)], l)))
  {
    ghost var before := Outputs(exs);
    assert AllWf(before);
    var i: nat := 0;
    while i < |exs|
      invariant i <= |exs| && Family(exs)
      invariant forall l :: 0 <= l < i ==> exs[l].Output() == before[l].Then(exs[l].Visits(OnLodStride([Coord(x, y, z)], l)))
      invariant forall l :: i <= l < |exs| ==> exs[l].Output() == before[l]
      decreases |exs| - i
    {
      i := LodNext(exs, i, x, y, z, before);
    }
  }

  /** Scanning a + b after output o is scanning a, then b. */
  lemma LodSplit<P, N>(ex: VoxelMeshExtractor<P, N>, l: nat, a: seq<Coord>, b: seq<Coord>, o: SectionOutput<TmpPoint<P>>)
    requires ex.grid.Wf() && WellFormed(ex.tables) && o.Wf()
    ensures o.Then(ex.Visits(OnLodStride(a + b, l))) == o.Then(ex.Visits(OnLodStride(a, l))).Then(ex.Visits(OnLodStride(b, l)))
  {
    OnLodStrideAppend(a, b, l);
    ex.VisitsAppend(OnLodStride(a, l), OnLodStride(b, l));
    ThenAssoc(o, ex.Visits(OnLodStride(a, l)), ex.Visits(OnLodStride(b, l)));
  }

  /** A scan with no cells left leaves every output as it is. */
  lemma LodDone<P, N>(ex: VoxelMeshExtractor<P, N>, l: nat, o: SectionOutput<TmpPoint<P>>)
    requires ex.grid.Wf() && WellFormed(ex.tables) && o.Wf()
    ensures o.Then(ex.Visits(OnLodStride([], l))) == o
  {
    ThenNone(o);
  }

  /** One pass of the z loop, for every LOD at once. */
  method LodRowStep<P(==), N>(exs: seq<VoxelMeshExtractor<P, N>>, n: nat, s: int, x: nat, y: nat, z: nat,
                              ghost goals: seq<SectionOutput<TmpPoint<P>>>) returns (z': nat)
    requires Family(exs) && s > 0 && z < n - s && |goals| == |exs|
    requires forall l :: 0 <= l < |exs| ==> exs[l].Output().Then(exs[l].Visits(OnLodStride(RowCells(n, s, x, y, z), l))) == goals[l]
    modifies FamilyRepr(exs)
    ensures z' == z + s && Family(exs)
    ensures forall l :: 0 <= l < |exs| ==> exs[l].Output().Then(exs[l].Visits(OnLodStride(RowCells(n, s, x, y, z'), l))) == goals[l]
  {
    z' := z + s;
    ghost var before := Outputs(exs);
    RowCellsNext(n, s, x, y, z, z');
    forall l | 0 <= l < |exs| {
      LodSplit(exs[l], l, [Coord(x, y, z)], RowCells(n, s, x, y, z'), before[l]);
    }
    GenerateLods(exs, x, y, z);
  }

  /** The z loop of polygonizeVoxelGridWithLOD. */
  method LodVisitRow<P(==), N>(exs: seq<VoxelMeshExtractor<P, N>>, n: nat, s: int, x: nat, y: nat)
    requires Family(exs) && s > 0
    modifies FamilyRepr(exs)
    ensures Family(exs)
    ensures forall l :: 0 <= l < |exs| ==> exs[l].Output() == old(exs[l].Output()).Then(exs[l].Visits(OnLodStride(RowCells(n, s, x, y, 0), l)))
  {
    ghost var goals := seq(|exs|, l requires 0 <= l < |exs| && Family(exs) reads FamilyRepr(exs) =>
      exs[l].Output().Then(exs[l].Visits(OnLodStride(RowCells(n, s, x, y, 0), l))));
    var z: nat := 0;
    while z < n - s
      invariant Family(exs)
      invariant forall l :: 0 <= l < |exs| ==> exs[l].Output().Then(exs[l].Visits(OnLodStride(RowCells(n, s, x, y, z), l))) == goals[l]
      decreases n - z
    {
      z := LodRowStep(exs, n, s, x, y, z, goals);
    }
    forall l | 0 <= l < |exs| {
      LodDone(exs[l], l, exs[l].Output());
    }
  }

  /** One pass of the y loop, for every LOD at once. */
  method LodSlabStep<P(==), N>(exs: seq<VoxelMeshExtractor<P, N>>, n: nat, s: int, x: nat, y: nat,
                               ghost goals: seq<SectionOutput<TmpPoint<P>>>) returns (y': nat)
    requires Family(exs) && s > 0 && y < n - s && |goals| == |exs|
    requires forall l :: 0 <= l < |exs| ==> exs[l].Output().Then(exs[l].Visits(OnLodStride(SlabCells(n, s, x, y), l))) == goals[l]
    modifies FamilyRepr(exs)
    ensures y' == y + s && Family(exs)
    ensures forall l :: 0 <= l < |exs| ==> exs[l].Output().Then(exs[l].Visits(OnLodStride(SlabCells(n, s, x, y'), l))) == goals[l]
  {
    y' := y + s;
    ghost var before := Outputs(exs);
    SlabCellsNext(n, s, x, y, y');
    forall l | 0 <= l < |exs| {
      LodSplit(exs[l], l, RowCells(n, s, x, y, 0), SlabCells(n, s, x, y'), before[l]);
    }
    LodVisitRow(exs, n, s, x, y);
  }

  /** The y loop of polygonizeVoxelGridWithLOD. */
  method LodVisitSlab<P(==), N>(exs: seq<VoxelMeshExtractor<P, N>>, n: nat, s: int, x: nat)
    requires Family(exs) && s > 0
    modifies FamilyRepr(exs)
    ensures Family(exs)
    ensures forall l :: 0 <= l < |exs| ==> exs[l].Output() == old(exs[l].Output()).Then(exs[l].Visits(OnLodStride(SlabCells(n, s, x, 0), l)))
  {
    ghost var goals := seq(|exs|, l requires 0 <= l < |exs| && Family(exs) reads FamilyRepr(exs) =>
      exs[l].Output().Then(exs[l].Visits(OnLodStride(SlabCells(n, s, x, 0), l))));
    var y: nat := 0;
    while y < n - s
      invariant Family(exs)
      invariant forall l :: 0 <= l < |exs| ==> exs[l].Output().Then(exs[l].Visits(OnLodStride(SlabCells(n, s, x, y), l))) == goals[l]
      decreases n - y
    {
      y := LodSlabStep(exs, n, s, x, y, goals);
    }
    forall l | 0 <= l < |exs| {
      LodDone(exs[l], l, exs[l].Output());
    }
  }

  /** One pass of the x loop, for every LOD at once. */
  method LodGridStep<P(==), N>(exs: seq<VoxelMeshExtractor<P, N>>, n: nat, s: int, x: nat,
                               ghost goals: seq<SectionOutput<TmpPoint<P>>>) returns (x': nat)
    requires Family(exs) && s > 0 && x < n - s && |goals| == |exs|
    requires forall l :: 0 <= l < |exs| ==> exs[l].Output().Then(exs[l].Visits(OnLodStride(GridCellsFrom(n, s, x), l))) == goals[l]
    modifies FamilyRepr(exs)
    ensures x' == x + s && Family(exs)
    ensures forall l :: 0 <= l < |exs| ==> exs[l].Output().Then(exs[l].Visits(OnLodStride(GridCellsFrom(n, s, x'), l))) == goals[l]
  {
    x' := x + s;
    ghost var before := Outputs(exs);
    GridCellsFromNext(n, s, x, x');
    forall l | 0 <= l < |exs| {
      LodSplit(exs[l], l, SlabCells(n, s, x, 0), GridCellsFrom(n, s, x'), before[l]);
    }
    LodVisitSlab(exs, n, s, x);
  }

  /** The x loop of polygonizeVoxelGridWithLOD: the whole stride-s lattice, each cell offered to every LOD. */
  method LodVisitGrid<P(==), N>(exs: seq<VoxelMeshExtractor<P, N>>, n: nat, s: int)
    requires Family(exs) && s > 0
    modifies FamilyRepr(exs)
    ensures Family(exs)
    ensures forall l :: 0 <= l < |exs| ==> exs[l].Output() == old(exs[l].Output()).Then(exs[l].Visits(OnLodStride(GridCells(n, s), l)))
  {
    ghost var goals := seq(|exs|, l requires 0 <= l < |exs| && Family(exs) reads FamilyRepr(exs) =>
      exs[l].Output().Then(exs[l].Visits(OnLodStride(GridCells(n, s), l))));
    var x: nat := 0;
    while x < n - s
      invariant Family(exs)
      invariant forall l :: 0 <= l < |exs| ==> exs[l].Output().Then(exs[l].Visits(OnLodStride(GridCellsFrom(n, s, x), l))) == goals[l]
      decreases n - x
    {
      x := LodGridStep(exs, n, s, x, goals);
    }
    forall l | 0 <= l < |exs| {
      LodDone(exs[l], l, exs[l].Output());
    }
  }

  // ---------------------------------------------------------------------------
  // The drivers

  /** A valid extractor that shares no buffer with a family can join it. */
  lemma FamilySnoc<P, N>(exs: seq<VoxelMeshExtractor<P, N>>, ex: VoxelMeshExtractor<P, N>)
    requires Family(exs) && ex.Valid() && forall l :: 0 <= l < |exs| ==> exs[l].Repr !! ex.Repr
    ensures Family(exs + [ex])
  {
  }

  lemma FamilyReprSnoc<P, N>(exs: seq<VoxelMeshExtractor<P, N>>, ex: VoxelMeshExtractor<P, N>)
    ensures FamilyRepr(exs + [ex]) == FamilyRepr(exs) + ex.Repr
  {
    var e := exs + [ex];
    forall o | o in FamilyRepr(e) ensures o in FamilyRepr(exs) + ex.Repr {
      var l :| 0 <= l < |e| && o in e[l].Repr;
      if l < |exs| {
        assert o in exs[l].Repr;
      }
    }
    forall o | o in FamilyRepr(exs) ensures o in FamilyRepr(e) {
      var l :| 0 <= l < |exs| && o in exs[l].Repr;
      assert o in e[l].Repr;
    }
    forall o | o in ex.Repr ensures o in FamilyRepr(e) {
      assert o in e[|exs|].Repr;
    }
  }

  /** Extractor l of the family is set up at LOD l. */
  ghost predicate AllConfigured<P, N>(exs: seq<VoxelMeshExtractor<P, N>>, view: GridView, vdp: VoxelDataParam,
                                      tables: Tables, geo: Geometry<P, N>)
  {
    forall l :: 0 <= l < |exs| ==> Configured(exs[l], l, view, vdp, tables, geo)
  }

  lemma AllConfiguredSnoc<P, N>(exs: seq<VoxelMeshExtractor<P, N>>, ex: VoxelMeshExtractor<P, N>, view: GridView,
                                vdp: VoxelDataParam, tables: Tables, geo: Geometry<P, N>)
    requires AllConfigured(exs, view, vdp, tables, geo) && Configured(ex, |exs|, view, vdp, tables, geo)
    ensures AllConfigured(exs + [ex], view, vdp, tables, geo)
  {
  }

  /** No extractor of the family has emitted anything. */
  ghost predicate AllEmpty<P, N>(exs: seq<VoxelMeshExtractor<P, N>>)
    requires Family(exs)
    reads FamilyRepr(exs)
  {
    forall l :: 0 <= l < |exs| ==> exs[l].Output() == NoOutput()
  }

  lemma AllEmptySnoc<P, N>(exs: seq<VoxelMeshExtractor<P, N>>, ex: VoxelMeshExtractor<P, N>)
    requires Family(exs) && ex.Valid() && Family(exs + [ex]) && ex.Output() == NoOutput()
    requires forall l :: 0 <= l < |exs| ==> exs[l].Output() == NoOutput()
    ensures AllEmpty(exs + [ex])
  {
    var e := exs + [ex];
    forall l | 0 <= l < |e| ensures e[l].Output() == NoOutput() {
      if l < |exs| {
        assert e[l] == exs[l];
      }
    }
  }

  /** One pass of the creation loop: a new extractor at the next LOD joins the family. */
  method Grow<P(==), N>(exs: seq<VoxelMeshExtractor<P, N>>, view: GridView, vdp: VoxelDataParam, tables: Tables, geo: Geometry<P, N>)
    returns (exs': seq<VoxelMeshExtractor<P, N>>)
    requires view.Wf() && WellFormed(tables) && Family(exs)
    requires AllConfigured(exs, view, vdp, tables, geo) && AllEmpty(exs)
    ensures |exs'| == |exs| + 1 && exs' == exs + [exs'[|exs|]] && fresh(exs'[|exs|].Repr)
    ensures Family(exs') && AllConfigured(exs', view, vdp, tables, geo) && AllEmpty(exs')
  {
    var ex := NewExtractor(view, vdp, |exs|, tables, geo);
    forall l | 0 <= l < |exs|
      ensures exs[l].Repr !! ex.Repr && exs[l].Valid() && exs[l].Output() == NoOutput()
    {
      assert unchanged(exs[l].Repr);
    }
    FamilySnoc(exs, ex);
    AllConfiguredSnoc(exs, ex, view, vdp, tables, geo);
    AllEmptySnoc(exs, ex);
    exs' := exs + [ex];
  }

  /** One extractor per LOD, extractor l set up at LOD l, as polygonizeVoxelGridWithLOD creates them. */
  method NewFamily<P(==), N>(view: GridView, vdp: VoxelDataParam, count: nat, tables: Tables, geo: Geometry<P, N>)
    returns (exs: seq<VoxelMeshExtractor<P, N>>)
    requires view.Wf() && WellFormed(tables)
    ensures |exs| == count && Family(exs) && fresh(FamilyRepr(exs))
    ensures AllConfigured(exs, view, vdp, tables, geo) && AllEmpty(exs)
  {
    exs := [];
    while |exs| < count
      invariant |exs| <= count && Family(exs) && fresh(FamilyRepr(exs))
      invariant AllConfigured(exs, view, vdp, tables, geo) && AllEmpty(exs)
      decreases count - |exs|
    {
      ghost var prev := exs;
      exs := Grow(exs, view, vdp, tables, geo);
      FamilyReprSnoc(prev, exs[|prev|]);
    }
  }

  /** The LOD sections the extractors of a family have filled, in LOD order. */
  method Sections<P(==), N>(exs: seq<VoxelMeshExtractor<P, N>>) returns (lods: seq<LodSection<P, N>>)
    requires forall l :: 0 <= l < |exs| ==> exs[l].Valid()
    ensures |lods| == |exs| && forall l :: 0 <= l < |exs| ==> lods[l].Wf() && lods[l].Soup() == OutputPositions(exs[l].Output())
  {
    lods := seq(|exs|, l requires 0 <= l < |exs| && exs[l].Valid() reads if 0 <= l < |exs| then exs[l].Repr else {} => exs[l].Section());
  }

  /** The sections of polygonizeVoxelGridWithLOD: section l holds the lattice cells on the stride of 2^l. */
  method GridFamilySections<P(==), N>(view: GridView, vdp: VoxelDataParam, count: nat, s: int, tables: Tables, geo: Geometry<P, N>)
    returns (lods: seq<LodSection<P, N>>, ghost exs: seq<VoxelMeshExtractor<P, N>>)
    requires view.Wf() && WellFormed(tables) && s > 0
    ensures |lods| == |exs| == count
    ensures forall l :: 0 <= l < count ==>
      Configured(exs[l], l, view, vdp, tables, geo) && Holds(lods[l], exs[l], OnLodStride(GridCells(view.num, s), l))
  {
    var e := NewFamily(view, vdp, count, tables, geo);
    LodVisitGrid(e, view.num, s);
    lods := Sections(e);
    forall l | 0 <= l < count {
      ThenNone(e[l].Visits(OnLodStride(GridCells(view.num, s), l)));
    }
    exs := e;
  }

  /**
   * polygonizeVoxelGridWithLOD: one scan of the lattice with the caller's
   * step, every cell offered to every LOD's extractor in LOD order.
   */
  method PolygonizeVoxelGridWithLOD<P(==), N>(vd: VoxelData, vdp: VoxelDataParam, tables: Tables, geo: Geometry<P, N>)
    returns (mesh: MeshData<P, N>, ghost exs: seq<VoxelMeshExtractor<P, N>>)
    requires vd.Valid() && WellFormed(tables) && vdp.Step() > 0
    ensures |mesh.lods| == |exs| == vd.lodCount && mesh.collision == mesh.lods[0].main
    ensures forall l :: 0 <= l < vd.lodCount ==>
      Configured(exs[l], l, vd.View(), vdp, tables, geo) && Holds(mesh.lods[l], exs[l], OnLodStride(GridCells(vd.num, vdp.Step()), l))
  {
    var lods;
    lods, exs := GridFamilySections(vd.View(), vdp, vd.lodCount, vdp.Step(), tables, geo);
    mesh := MeshData(lods, lods[0].main);
  }

  // ---------------------------------------------------------------------------
  // Strategy selection

  /**
   * The cells LOD section l of the result is generated from: the decoded
   * cache list of the section's LOD when the substance cache is valid, else
   * the stride-step lattice, cut down to the stride of 2^l when LOD
   * sections are generated.
   */
  ghost function GeneratedCells(num: nat, cellLists: seq<seq<nat>>, step: int, cacheValid: bool, generateLOD: bool, l: nat): seq<Coord>
    requires cacheValid ==> num > 0 && (if generateLOD then l else 0) < |cellLists|
    requires !cacheValid ==> step > 0
  {
    if cacheValid then DecodeCells(num, cellLists[if generateLOD then l else 0])
    else if generateLOD then OnLodStride(GridCells(num, step), l)
    else GridCells(num, step)
  }

  /**
   * sandboxVoxelGenerateMesh: the cache-driven drivers when the substance
   * cache is valid, the brute-force ones otherwise; the LOD variant of
   * either when bGenerateLOD is set. isSubstanceCacheValid() is the
   * cacheValid parameter.
   */
  method SandboxVoxelGenerateMesh<P(==), N>(vd: VoxelData, vdp: VoxelDataParam, cacheValid: bool, tables: Tables, geo: Geometry<P, N>)
    returns (mesh: MeshData<P, N>, ghost exs: seq<VoxelMeshExtractor<P, N>>)
    requires vd.Valid() && WellFormed(tables)
    requires cacheValid ==> vd.num > 0
    requires !cacheValid ==> vdp.Step() > 0
    ensures |mesh.lods| == vd.lodCount && mesh.collision == mesh.lods[0].main
    ensures |exs| == if vdp.generateLOD then vd.lodCount else 1
    ensures forall l :: 0 <= l < |exs| ==>
      && Configured(exs[l], if vdp.generateLOD then l else vdp.lod, vd.View(), vdp, tables, geo)
      && Holds(mesh.lods[l], exs[l], GeneratedCells(vd.num, vd.cellLists, vdp.Step(), cacheValid, vdp.generateLOD, l))
    ensures forall l :: |exs| <= l < vd.lodCount ==> mesh.lods[l] == EmptySection()
  {
    if cacheValid {
      if vdp.generateLOD {
        mesh, exs := PolygonizeCellSubstanceCacheLOD(vd, vdp, tables, geo);
      } else {
        ghost var ex;
        mesh, ex := PolygonizeCellSubstanceCacheNoLOD(vd, vdp, tables, geo);
        exs := [ex];
      }
    } else {
      if vdp.generateLOD {
        mesh, exs := PolygonizeVoxelGridWithLOD(vd, vdp, tables, geo);
      } else {
        ghost var ex;
        mesh, ex := PolygonizeVoxelGridNoLOD(vd, vdp, tables, geo);
        exs := [ex];
      }
    }
  }
}
