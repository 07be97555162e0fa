/**
 * The four polygonisation drivers and the strategy selection of
 * sandboxVoxelGenerateMesh. A driver creates one extractor per LOD section
 * it fills and calls generateCell on a sequence of cells: the cells decoded
 * from a LOD's substance cache, or every stride-aligned cell of the lattice
 * in x, y, z order. Each driver is specified by the output its sections end
 * up holding, as a function of that visiting sequence.
 */
module Drivers {
  import opened Lattice
  import opened VoxelGrid
  import opened CaseCodes
  import opened Welding
  import opened Extraction
  import opened VisitOrder

  /**
   * VoxelDataParam: the LOD, whether LOD sections are generated, and step(),
   * whose definition is not part of this model, as a function of the LOD.
   */
  datatype VoxelDataParam = VoxelDataParam(lod: nat, generateLOD: bool, stepOf: nat -> int)
  {
    function Step(): int { stepOf(lod) }
  }

  /** The floating-point geometry an extractor is handed. */
  datatype Geometry<!P, !N> = Geometry(
    toVector: (int, int, int) -> P,
    interpolate: (P, P, real, real) -> P,
    distanceRatio: (P, P, P) -> real,
    coarseAddr: (Point<P>, Point<P>) -> PointAddr,
    faceNormal: (P, P, P) -> N,
    average: (N, N) -> N)

  /**
   * MeshData: the array of LOD sections and the collision mesh, which is
   * LOD section 0's main mesh.
   */
  datatype MeshData<P, N> = MeshData(lods: seq<LodSection<P, N>>, collision: ProcMeshSection<P, N>)

  // ---------------------------------------------------------------------------
  // Extractors

  /**
   * An extractor set up as the drivers set it up: over the grid, with the
   * caller's tables and geometry, at LOD l with step() of l.
   */
  ghost predicate Configured<P, N>(ex: VoxelMeshExtractor<P, N>, l: nat, view: GridView, vdp: VoxelDataParam,
                                   tables: Tables, geo: Geometry<P, N>)
  {
    && ex.grid == view && ex.tables == tables
    && ex.lod == l && ex.step == vdp.stepOf(l) && ex.generateLOD == vdp.generateLOD
    && ex.toVector == geo.toVector && ex.interpolate == geo.interpolate
    && ex.distanceRatio == geo.distanceRatio && ex.coarseAddr == geo.coarseAddr
  }

  /** A LOD section that holds what the extractor emits for the given cells, in order. */
  ghost predicate Holds<P, N>(sec: LodSection<P, N>, ex: VoxelMeshExtractor<P, N>, cells: seq<Coord>)
    requires ex.grid.Wf() && WellFormed(ex.tables)
  {
    sec.Wf() && sec.Soup() == OutputPositions(ex.Visits(cells))
  }

  /** An extractor whose section was just created holds nothing yet. */
  lemma EmptyOutput<P>(o: SectionOutput<TmpPoint<P>>)
    requires o.Wf() && o.main == [] && forall j :: 0 <= j < 6 ==> o.faces[j] == []
    ensures o == NoOutput()
  {
  }

  /** new VoxelMeshExtractor(section, vd, vdp) with vdp.lod = l. */
  method NewExtractor<P(==), N>(view: GridView, vdp: VoxelDataParam, l: nat, tables: Tables, geo: Geometry<P, N>)
    returns (ex: VoxelMeshExtractor<P, N>)
    requires view.Wf() && WellFormed(tables)
    ensures ex.Valid() && fresh(ex.Repr) && ex.Output() == NoOutput()
    ensures Configured(ex, l, view, vdp, tables, geo)
  {
    var meVdp := vdp.(lod := l);
    ex := new VoxelMeshExtractor(view, tables, meVdp.lod, meVdp.Step(), meVdp.generateLOD, geo.toVector,
                                 geo.interpolate, geo.distanceRatio, geo.coarseAddr, geo.faceNormal, geo.average);
    EmptyOutput(ex.Output());
  }

  /** The LOD section array of a driver that fills only section 0. */
  function OnlyFirst<P, N>(sec: LodSection<P, N>, count: nat): (lods: seq<LodSection<P, N>>)
    requires count >= 1
    ensures |lods| == count && lods[0] == sec
    ensures forall l :: 1 <= l < count ==> lods[l] == EmptySection()
  {
    [sec] + seq(count - 1, _ => EmptySection())
  }

  // ---------------------------------------------------------------------------
  // Cache-driven drivers

  /** generateCell(x, y, z), seen as a visit of the one cell (x, y, z). */
  method Generate<P(==), N>(ex: VoxelMeshExtractor<P, N>, x: nat, y: nat, z: nat)
    requires ex.Valid()
    modifies ex.Repr
    ensures ex.Valid() && ex.Output() == old(ex.Output()).Then(ex.Visits([Coord(x, y, z)]))
  {
    ex.GenerateCell(x, y, z);
    ex.VisitsSnoc([], Coord(x, y, z));
    assert [] + [Coord(x, y, z)] == [Coord(x, y, z)];
    ThenNone(ex.CellOutput(x, y, z));
  }

  /**
   * One pass of the cache loop: decode list[k] as x = i / (N*N),
   * y = (i / N) % N, z = i % N, and generate that cell.
   */
  method CacheStep<P(==), N>(ex: VoxelMeshExtractor<P, N>, n: nat, nn: nat, list: seq<nat>, k: nat,
                             ghost goal: SectionOutput<TmpPoint<P>>) returns (k': nat)
    requires ex.Valid() && n > 0 && nn == Mul(n, n) && k < |list|
    requires ex.Output().Then(ex.Visits(DecodeCells(n, list[k..]))) == goal
    modifies ex.Repr
    ensures k' == k + 1
    ensures ex.Valid() && ex.Output().Then(ex.Visits(DecodeCells(n, list[k'..]))) == goal
  {
    k' := k + 1;
    var index := list[k];
    var x, y, z := index / nn, (index / n) % n, index % n;
    assert x >= 0 by { DivModParts(index, nn); }
    ghost var before := ex.Output();
    ghost var rest := DecodeCells(n, list[k'..]);
    DecodeCellsNext(n, list, k, k');
    ex.VisitsAppend([Coord(x, y, z)], rest);
    ThenAssoc(before, ex.Visits([Coord(x, y, z)]), ex.Visits(rest));
    Generate(ex, x, y, z);
  }

  /** generateCell on every cell of a cache list, in list order. */
  method VisitCacheList<P(==), N>(ex: VoxelMeshExtractor<P, N>, n: nat, list: seq<nat>)
    requires ex.Valid() && n > 0
    modifies ex.Repr
    ensures ex.Valid() && ex.Output() == old(ex.Output()).Then(ex.Visits(DecodeCells(n, list)))
  {
    var nn := Mul(n, n);
    ghost var goal := ex.Output().Then(ex.Visits(DecodeCells(n, list)));
    assert list[0..] == list;
    var k: nat := 0;
    while k < |list|
      invariant k <= |list|
      invariant ex.Valid() && ex.Output().Then(ex.Visits(DecodeCells(n, list[k..]))) == goal
      decreases |list| - k
    {
      k := CacheStep(ex, n, nn, list, k, goal);
    }
    assert DecodeCells(n, list[k..]) == [];
    ThenNone(ex.Output());
  }

  /** One section of the cache-driven drivers: a fresh extractor at LOD l over a cache list. */
  method CacheSection<P(==), N>(view: GridView, vdp: VoxelDataParam, l: nat, list: seq<nat>,
                                tables: Tables, geo: Geometry<P, N>) returns (sec: LodSection<P, N>, ghost ex: VoxelMeshExtractor<P, N>)
    requires view.Wf() && view.num > 0 && WellFormed(tables)
    ensures Configured(ex, l, view, vdp, tables, geo) && Holds(sec, ex, DecodeCells(view.num, list))
  {
    var e := NewExtractor(view, vdp, l, tables, geo);
    VisitCacheList(e, view.num, list);
    ThenNone(e.Visits(DecodeCells(view.num, list)));
    sec, ex := e.Section(), e;
  }

  /** polygonizeCellSubstanceCacheNoLOD: the cells of LOD 0's cache, with the caller's parameters. */
  method PolygonizeCellSubstanceCacheNoLOD<P(==), N>(vd: VoxelData, vdp: VoxelDataParam, tables: Tables, geo: Geometry<P, N>)
    returns (mesh: MeshData<P, N>, ghost ex: VoxelMeshExtractor<P, N>)
    requires vd.Valid() && vd.num > 0 && WellFormed(tables)
    ensures |mesh.lods| == vd.lodCount && mesh.collision == mesh.lods[0].main
    ensures Configured(ex, vdp.lod, vd.View(), vdp, tables, geo)
    ensures Holds(mesh.lods[0], ex, DecodeCells(vd.num, vd.cellLists[0]))
    ensures forall l :: 1 <= l < vd.lodCount ==> mesh.lods[l] == EmptySection()
  {
    var sec;
    sec, ex := CacheSection(vd.View(), vdp, vdp.lod, vd.cellLists[0], tables, geo);
    var lods := OnlyFirst(sec, vd.lodCount);
    mesh := MeshData(lods, lods[0].main);
  }

  /** polygonizeCellSubstanceCacheLOD: for every LOD, a fresh extractor at that LOD over that LOD's cache. */
  method PolygonizeCellSubstanceCacheLOD<P(==), N>(vd: VoxelData, vdp: VoxelDataParam, tables: Tables, geo: Geometry<P, N>)
    returns (mesh: MeshData<P, N>, ghost exs: seq<VoxelMeshExtractor<P, N>>)
    requires vd.Valid() && vd.num > 0 && WellFormed(tables)
    ensures |mesh.lods| == |exs| == vd.lodCount && mesh.collision == mesh.lods[0].main
    ensures forall l :: 0 <= l < vd.lodCount ==>
      Configured(exs[l], l, vd.View(), vdp, tables, geo) && Holds(mesh.lods[l], exs[l], DecodeCells(vd.num, vd.cellLists[l]))
  {
    var lods: seq<LodSection<P, N>> := [];
    exs := [];
    var view := vd.View();
    for lod := 0 to vd.lodCount
      invariant |lods| == |exs| == lod
      invariant forall l :: 0 <= l < lod ==>
        Configured(exs[l], l, vd.View(), vdp, tables, geo) && Holds(lods[l], exs[l], DecodeCells(vd.num, vd.cellLists[l]))
    {
      var sec, ex := CacheSection(view, vdp, lod, vd.cellLists[lod], tables, geo);
      lods, exs := lods + [sec], exs + [ex];
    }
    mesh := MeshData(lods, lods[0].main);
  }

  // ---------------------------------------------------------------------------
  // Brute-force drivers, one LOD

  /**
   * One pass of the z loop: generateCell(x, y, z), then z += s. The output
   * still to come, the row from the new z, keeps the final output fixed.
   */
  method RowStep<P(==), N>(ex: VoxelMeshExtractor<P, N>, n: nat, s: int, x: nat, y: nat, z: nat,
                           ghost goal: SectionOutput<TmpPoint<P>>) returns (z': nat)
    requires ex.Valid() && s > 0 && z < n - s
    requires ex.Output().Then(ex.Visits(RowCells(n, s, x, y, z))) == goal
    modifies ex.Repr
    ensures z' == z + s
    ensures ex.Valid() && ex.Output().Then(ex.Visits(RowCells(n, s, x, y, z'))) == goal
  {
    z' := z + s;
    ghost var before := ex.Output();
    ghost var rest := RowCells(n, s, x, y, z');
    RowCellsNext(n, s, x, y, z, z');
    ex.VisitsAppend([Coord(x, y, z)], rest);
    ThenAssoc(before, ex.Visits([Coord(x, y, z)]), ex.Visits(rest));
    Generate(ex, x, y, z);
  }

  /** The z loop: generateCell(x, y, z) for z = 0, s, 2s, ... while z < N - s. */
  method VisitRow<P(==), N>(ex: VoxelMeshExtractor<P, N>, n: nat, s: int, x: nat, y: nat)
    requires ex.Valid() && s > 0
    modifies ex.Repr
    ensures ex.Valid() && ex.Output() == old(ex.Output()).Then(ex.Visits(RowCells(n, s, x, y, 0)))
  {
    ghost var goal := ex.Output().Then(ex.Visits(RowCells(n, s, x, y, 0)));
    var z: nat := 0;
    while z < n - s
      invariant ex.Valid() && ex.Output().Then(ex.Visits(RowCells(n, s, x, y, z))) == goal
      decreases n - z
    {
      z := RowStep(ex, n, s, x, y, z, goal);
    }
    ThenNone(ex.Output());
  }

  /** One pass of the y loop: the row at y, then y += s. */
  method SlabStep<P(==), N>(ex: VoxelMeshExtractor<P, N>, n: nat, s: int, x: nat, y: nat,
                            ghost goal: SectionOutput<TmpPoint<P>>) returns (y': nat)
    requires ex.Valid() && s > 0 && y < n - s
    requires ex.Output().Then(ex.Visits(SlabCells(n, s, x, y))) == goal
    modifies ex.Repr
    ensures y' == y + s
    ensures ex.Valid() && ex.Output().Then(ex.Visits(SlabCells(n, s, x, y'))) == goal
  {
    y' := y + s;
    ghost var before := ex.Output();
    ghost var row, rest := RowCells(n, s, x, y, 0), SlabCells(n, s, x, y');
    SlabCellsNext(n, s, x, y, y');
    ex.VisitsAppend(row, rest);
    ThenAssoc(before, ex.Visits(row), ex.Visits(rest));
    VisitRow(ex, n, s, x, y);
  }

  /** The y loop around VisitRow. */
  method VisitSlab<P(==), N>(ex: VoxelMeshExtractor<P, N>, n: nat, s: int, x: nat)
    requires ex.Valid() && s > 0
    modifies ex.Repr
    ensures ex.Valid() && ex.Output() == old(ex.Output()).Then(ex.Visits(SlabCells(n, s, x, 0)))
  {
    ghost var goal := ex.Output().Then(ex.Visits(SlabCells(n, s, x, 0)));
    var y: nat := 0;
    while y < n - s
      invariant ex.Valid() && ex.Output().Then(ex.Visits(SlabCells(n, s, x, y))) == goal
      decreases n - y
    {
      y := SlabStep(ex, n, s, x, y, goal);
    }
    ThenNone(ex.Output());
  }

  /** One pass of the x loop: the slab at x, then x += s. */
  method GridStep<P(==), N>(ex: VoxelMeshExtractor<P, N>, n: nat, s: int, x: nat,
                            ghost goal: SectionOutput<TmpPoint<P>>) returns (x': nat)
    requires ex.Valid() && s > 0 && x < n - s
    requires ex.Output().Then(ex.Visits(GridCellsFrom(n, s, x))) == goal
    modifies ex.Repr
    ensures x' == x + s
    ensures ex.Valid() && ex.Output().Then(ex.Visits(GridCellsFrom(n, s, x'))) == goal
  {
    x' := x + s;
    ghost var before := ex.Output();
    ghost var slab, rest := SlabCells(n, s, x, 0), GridCellsFrom(n, s, x');
    GridCellsFromNext(n, s, x, x');
    ex.VisitsAppend(slab, rest);
    ThenAssoc(before, ex.Visits(slab), ex.Visits(rest));
    VisitSlab(ex, n, s, x);
  }

  /** The x loop around VisitSlab: every cell of the stride-s lattice below N - s. */
  method VisitGrid<P(==), N>(ex: VoxelMeshExtractor<P, N>, n: nat, s: int)
    requires ex.Valid() && s > 0
    modifies ex.Repr
    ensures ex.Valid() && ex.Output() == old(ex.Output()).Then(ex.Visits(GridCells(n, s)))
  {
    ghost var goal := ex.Output().Then(ex.Visits(GridCells(n, s)));
    var x: nat := 0;
    while x < n - s
      invariant ex.Valid() && ex.Output().Then(ex.Visits(GridCellsFrom(n, s, x))) == goal
      decreases n - x
    {
      x := GridStep(ex, n, s, x, goal);
    }
    ThenNone(ex.Output());
  }

  /** One section of the brute-force drivers: a fresh extractor at LOD l over the stride-s lattice. */
  method GridSection<P(==), N>(view: GridView, vdp: VoxelDataParam, l: nat, s: int,
                               tables: Tables, geo: Geometry<P, N>) returns (sec: LodSection<P, N>, ghost ex: VoxelMeshExtractor<P, N>)
    requires view.Wf() && WellFormed(tables) && s > 0
    ensures Configured(ex, l, view, vdp, tables, geo) && Holds(sec, ex, GridCells(view.num, s))
  {
    var e := NewExtractor(view, vdp, l, tables, geo);
    VisitGrid(e, view.num, s);
    ThenNone(e.Visits(GridCells(view.num, s)));
    sec, ex := e.Section(), e;
  }

  /** polygonizeVoxelGridNoLOD: every cell of the stride-step lattice below N - step, x outermost. */
  method PolygonizeVoxelGridNoLOD<P(==), N>(vd: VoxelData, vdp: VoxelDataParam, tables: Tables, geo: Geometry<P, N>)
    returns (mesh: MeshData<P, N>, ghost ex: VoxelMeshExtractor<P, N>)
    requires vd.Valid() && WellFormed(tables) && vdp.Step() > 0
    ensures |mesh.lods| == vd.lodCount && mesh.collision == mesh.lods[0].main
    ensures Configured(ex, vdp.lod, vd.View(), vdp, tables, geo)
    ensures Holds(mesh.lods[0], ex, GridCells(vd.num, vdp.Step()))
    ensures forall l :: 1 <= l < vd.lodCount ==> mesh.lods[l] == EmptySection()
  {
    var sec;
    sec, ex := GridSection(vd.View(), vdp, vdp.lod, vdp.Step(), tables, geo);
    var lods := OnlyFirst(sec, vd.lodCount);
    mesh := MeshData(lods, lods[0].main);
  }
}
