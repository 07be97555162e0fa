/**
 * The voxel grid (VoxelData): an N x N x N lattice of density and material
 * bytes with a lazily allocated density buffer (fill state ZERO, ALL or MIX),
 * a lazily allocated material buffer that falls back to a base material, and
 * the per-LOD substance cache of cells that straddle the isolevel.
 */
module VoxelGrid {
  import opened Lattice
  import opened Quantize

  /** VoxelDataFillState: the density buffer is absent for ZERO and ALL. */
  datatype FillState = Zero | All | Mix

  /** The byte that a uniform grid stands for. */
  function FillByte(s: FillState): byte
  {
    if s == All then 255 else 0
  }

  /** A write that setDensity skips when the buffer is absent. */
  predicate NoOpWrite(s: FillState, d: real)
  {
    (s == Zero && d == 0.0) || (s == All && d == 1.0)
  }

  /** A buffer of len copies of one byte. */
  function Uniform(len: nat, b: byte): (r: seq<byte>)
    ensures |r| == len && forall i :: 0 <= i < len ==> r[i] == b
  {
    seq(len, _ => b)
  }

  /** What a material id becomes when stored in an unsigned char. */
  function ToByte(v: int): byte
  {
    v % 256
  }

  // ---------------------------------------------------------------------------
  // The substance cache, as functions of the density bytes

  /** The stored byte at an in-range coordinate (getRawDensity). */
  function RawAt(bytes: seq<byte>, n: nat, c: Coord): byte
    requires |bytes| == Cube(n) && InRange(n, c.x, c.y, c.z)
  {
    LinearIndexBound(n, c.x, c.y, c.z);
    bytes[LinearIndex(n, c.x, c.y, c.z)]
  }

  /** The early-return tests of performCellSubstanceCaching. */
  predicate CacheGuard(x: nat, y: nat, z: nat, step: nat)
  {
    x > 0 && y > 0 && z > 0 && x >= step && y >= step && z >= step
  }

  /** The eight corners probed for the cell whose far corner is (x, y, z), in the probe's order. */
  function CacheCorners(x: nat, y: nat, z: nat, step: nat): (cs: seq<Coord>)
    requires x >= step && y >= step && z >= step
    ensures |cs| == 8
    ensures forall i :: 0 <= i < 8 ==> x - step <= cs[i].x <= x && y - step <= cs[i].y <= y && z - step <= cs[i].z <= z
  {
    [Coord(x, y - step, z), Coord(x, y, z), Coord(x - step, y - step, z), Coord(x - step, y, z),
     Coord(x, y - step, z - step), Coord(x, y, z - step), Coord(x - step, y - step, z - step), Coord(x - step, y, z - step)]
  }

  /** The eight raw corner bytes of a probed cell. */
  function CornerBytes(bytes: seq<byte>, n: nat, x: nat, y: nat, z: nat, step: nat): (d: seq<byte>)
    requires |bytes| == Cube(n) && InRange(n, x, y, z) && x >= step && y >= step && z >= step
    ensures |d| == 8
  {
    var cs := CacheCorners(x, y, z, step);
    seq(8, i requires 0 <= i < 8 => RawAt(bytes, n, cs[i]))
  }

  /** The eight bytes performCellSubstanceCaching reads, in its order, are the cell's corner bytes. */
  lemma CornerBytesRead(bytes: seq<byte>, n: nat, x: nat, y: nat, z: nat, step: nat, d: seq<byte>)
    requires |bytes| == Cube(n) && InRange(n, x, y, z) && x >= step && y >= step && z >= step
    requires d == [RawAt(bytes, n, Coord(x, y - step, z)), RawAt(bytes, n, Coord(x, y, z)),
                   RawAt(bytes, n, Coord(x - step, y - step, z)), RawAt(bytes, n, Coord(x - step, y, z)),
                   RawAt(bytes, n, Coord(x, y - step, z - step)), RawAt(bytes, n, Coord(x, y, z - step)),
                   RawAt(bytes, n, Coord(x - step, y - step, z - step)), RawAt(bytes, n, Coord(x - step, y, z - step))]
    ensures d == CornerBytes(bytes, n, x, y, z, step)
  {
  }

  predicate AllAbove(d: seq<byte>)
  {
    forall i :: 0 <= i < |d| ==> d[i] > IsoByte
  }

  predicate AllAtOrBelow(d: seq<byte>)
  {
    forall i :: 0 <= i < |d| ==> d[i] <= IsoByte
  }

  /** The cell straddles the isolevel: its corners are neither all above nor all at-or-below 127. */
  predicate Straddles(bytes: seq<byte>, n: nat, x: nat, y: nat, z: nat, step: nat)
    requires |bytes| == Cube(n) && InRange(n, x, y, z) && x >= step && y >= step && z >= step
  {
    var d := CornerBytes(bytes, n, x, y, z, step);
    !AllAbove(d) && !AllAtOrBelow(d)
  }

  /** The cache entry of a cell: the linear index of its near corner. */
  function NearCorner(n: nat, x: nat, y: nat, z: nat, step: nat): nat
    requires x >= step && y >= step && z >= step
  {
    LinearIndex(n, x - step, y - step, z - step)
  }

  /** One call of performCellSubstanceCaching, on the cache lists. */
  function ProbeCell(lists: seq<seq<nat>>, bytes: seq<byte>, n: nat, x: nat, y: nat, z: nat, lod: nat, step: nat): (r: seq<seq<nat>>)
    requires lod < |lists| && |bytes| == Cube(n) && InRange(n, x, y, z)
    ensures |r| == |lists|
  {
    if CacheGuard(x, y, z, step) && Straddles(bytes, n, x, y, z, step) then
      lists[lod := lists[lod] + [NearCorner(n, x, y, z, step)]]
    else
      lists
  }

  /** LOD l (stride 2^l) is probed at (x, y, z) when the point is a multiple of 2^l and at least 2^l. */
  predicate Aligned(x: nat, y: nat, z: nat, s: nat)
    requires s > 0
  {
    x >= s && y >= s && z >= s && x % s == 0 && y % s == 0 && z % s == 0
  }

  /** performSubstanceCacheLOD over the first k LODs, on the cache lists. */
  function ProbeLods(lists: seq<seq<nat>>, bytes: seq<byte>, n: nat, x: nat, y: nat, z: nat, k: nat): (r: seq<seq<nat>>)
    requires k <= |lists| && |bytes| == Cube(n) && InRange(n, x, y, z)
    ensures |r| == |lists|
  {
    if k == 0 then lists
    else
      var l := ProbeLods(lists, bytes, n, x, y, z, k - 1);
      var s := Pow2(k - 1);
      if Aligned(x, y, z, s) then ProbeCell(l, bytes, n, x, y, z, k - 1, s) else l
  }

  /** LOD l caches the cell whose far corner is (x, y, z). */
  predicate CachedAt(bytes: seq<byte>, n: nat, c: Coord, l: nat)
    requires |bytes| == Cube(n) && InRange(n, c.x, c.y, c.z)
  {
    var s := Pow2(l);
    Aligned(c.x, c.y, c.z, s) && Straddles(bytes, n, c.x, c.y, c.z, s)
  }

  /**
   * The probes of the first k LODs at one point are independent: LOD l gains
   * the point's near corner exactly when l < k, the point lies on the LOD's
   * lattice and the cell of stride 2^l straddles; every other list is kept.
   */
  lemma {:induction false} ProbeLodsEffect(lists: seq<seq<nat>>, bytes: seq<byte>, n: nat, c: Coord, k: nat, l: nat)
    requires k <= |lists| && l < |lists| && |bytes| == Cube(n) && InRange(n, c.x, c.y, c.z)
    ensures ProbeLods(lists, bytes, n, c.x, c.y, c.z, k)[l] ==
      if l < k && CachedAt(bytes, n, c, l) then lists[l] + [NearCorner(n, c.x, c.y, c.z, Pow2(l))] else lists[l]
  {
    if k > 0 {
      ProbeLodsEffect(lists, bytes, n, c, k - 1, l);
    }
  }

  /**
   * The lists after probing, at every LOD, the first k points of the grid in
   * x-y-z order (the density loop of the loader probes after every sample).
   */
  function ScanCache(lists: seq<seq<nat>>, bytes: seq<byte>, n: nat, k: nat): (r: seq<seq<nat>>)
    requires |bytes| == Cube(n) && k <= Cube(n)
    ensures |r| == |lists|
  {
    if k == 0 || n == 0 then lists
    else
      var c := DecodeIn(n, k - 1);
      ProbeLods(ScanCache(lists, bytes, n, k - 1), bytes, n, c.x, c.y, c.z, |lists|)
  }

  /** The entries LOD l gains while the first k points are scanned, by themselves. */
  function ScanLod(bytes: seq<byte>, n: nat, l: nat, k: nat): seq<nat>
    requires |bytes| == Cube(n) && k <= Cube(n)
  {
    if k == 0 || n == 0 then []
    else
      var c := DecodeIn(n, k - 1);
      ScanLod(bytes, n, l, k - 1) + if CachedAt(bytes, n, c, l) then [NearCorner(n, c.x, c.y, c.z, Pow2(l))] else []
  }

  /** A scan appends to each LOD's list exactly that LOD's own entries. */
  lemma {:induction false} ScanCacheEffect(lists: seq<seq<nat>>, bytes: seq<byte>, n: nat, k: nat, l: nat)
    requires |bytes| == Cube(n) && k <= Cube(n) && l < |lists|
    ensures ScanCache(lists, bytes, n, k)[l] == lists[l] + ScanLod(bytes, n, l, k)
  {
    if k > 0 && n > 0 {
      var c := DecodeIn(n, k - 1);
      ScanCacheEffect(lists, bytes, n, k - 1, l);
      ProbeLodsEffect(ScanCache(lists, bytes, n, k - 1), bytes, n, c, |lists|, l);
    }
  }

  /** Every scanned point whose cell straddles at LOD l has its near corner in the LOD's entries. */
  lemma {:induction false} ScanLodComplete(bytes: seq<byte>, n: nat, l: nat, k: nat, i: nat)
    requires |bytes| == Cube(n) && k <= Cube(n) && i < k
    ensures var c := DecodeIn(n, i);
      CachedAt(bytes, n, c, l) ==> NearCorner(n, c.x, c.y, c.z, Pow2(l)) in ScanLod(bytes, n, l, k)
  {
    if i < k - 1 {
      ScanLodComplete(bytes, n, l, k - 1, i);
    }
  }

  /** Every entry of LOD l is the near corner of a scanned point whose cell straddles at that stride. */
  lemma {:induction false} ScanLodSound(bytes: seq<byte>, n: nat, l: nat, k: nat, e: nat)
    requires |bytes| == Cube(n) && k <= Cube(n) && e in ScanLod(bytes, n, l, k)
    ensures exists i :: (0 <= i < k && CachedAt(bytes, n, DecodeIn(n, i), l) &&
      e == NearCorner(n, DecodeIn(n, i).x, DecodeIn(n, i).y, DecodeIn(n, i).z, Pow2(l)))
  {
    var c := DecodeIn(n, k - 1);
    if e in ScanLod(bytes, n, l, k - 1) {
      ScanLodSound(bytes, n, l, k - 1, e);
    } else {
      assert CachedAt(bytes, n, c, l) && e == NearCorner(n, c.x, c.y, c.z, Pow2(l));
    }
  }

  /** Each corner a probe reads lies at or before the probed point in x-y-z order. */
  lemma CornersPrecede(n: nat, x: nat, y: nat, z: nat, step: nat, i: nat)
    requires x >= step && y >= step && z >= step && i < 8
    ensures var c := CacheCorners(x, y, z, step)[i]; LinearIndex(n, c.x, c.y, c.z) <= LinearIndex(n, x, y, z)
  {
    var c := CacheCorners(x, y, z, step)[i];
    LinearIndexMonotone(n, c.x, c.y, c.z, x, y, z);
  }

  /** A probe depends only on the bytes at or before the probed point. */
  lemma ProbeLodsAgree(lists: seq<seq<nat>>, b1: seq<byte>, b2: seq<byte>, n: nat, x: nat, y: nat, z: nat, k: nat)
    requires k <= |lists| && |b1| == |b2| == Cube(n) && InRange(n, x, y, z)
    requires forall i :: 0 <= i <= Slot(n, x, y, z) ==> b1[i] == b2[i]
    ensures ProbeLods(lists, b1, n, x, y, z, k) == ProbeLods(lists, b2, n, x, y, z, k)
  {
    if k > 0 {
      ProbeLodsAgree(lists, b1, b2, n, x, y, z, k - 1);
      var s := Pow2(k - 1);
      if x >= s && y >= s && z >= s {
        forall i | 0 <= i < 8
          ensures CornerBytes(b1, n, x, y, z, s)[i] == CornerBytes(b2, n, x, y, z, s)[i]
        {
          CornersPrecede(n, x, y, z, s, i);
        }
        assert CornerBytes(b1, n, x, y, z, s) == CornerBytes(b2, n, x, y, z, s);
      }
    }
  }

  /** Scanning the first k points depends only on the first k bytes. */
  lemma {:induction false} ScanCacheAgree(lists: seq<seq<nat>>, b1: seq<byte>, b2: seq<byte>, n: nat, k: nat)
    requires |b1| == |b2| == Cube(n) && k <= Cube(n)
    requires forall i :: 0 <= i < k ==> b1[i] == b2[i]
    ensures ScanCache(lists, b1, n, k) == ScanCache(lists, b2, n, k)
  {
    if k > 0 && n > 0 {
      ScanCacheAgree(lists, b1, b2, n, k - 1);
      var c := DecodeIn(n, k - 1);
      ProbeLodsAgree(ScanCache(lists, b1, n, k - 1), b1, b2, n, c.x, c.y, c.z, |lists|);
    }
  }

  // ---------------------------------------------------------------------------
  // Filling a freshly allocated buffer, as both initialisers do

  /** The innermost loop: z = 0..N-1 at fixed x and y. */
  method FillRow(a: array<byte>, n: nat, x: nat, y: nat, v: byte)
    requires x < n && y < n && a.Length == Cube(n)
    requires forall i :: 0 <= i < LinearIndex(n, x, y, 0) && i < a.Length ==> a[i] == v
    modifies a
    ensures forall i :: 0 <= i < LinearIndex(n, x, y + 1, 0) && i < a.Length ==> a[i] == v
  {
    var z := 0;
    while z < n
      invariant 0 <= z <= n
      invariant forall i :: 0 <= i < LinearIndex(n, x, y, z) && i < a.Length ==> a[i] == v
    {
      LinearIndexBound(n, x, y, z);
      a[LinearIndex(n, x, y, z)] := v;
      z := z + 1;
    }
    RowEnd(n, x, y);
  }

  /** The middle loop: y = 0..N-1 at fixed x. */
  method FillSlab(a: array<byte>, n: nat, x: nat, v: byte)
    requires x < n && a.Length == Cube(n)
    requires forall i :: 0 <= i < LinearIndex(n, x, 0, 0) && i < a.Length ==> a[i] == v
    modifies a
    ensures forall i :: 0 <= i < LinearIndex(n, x + 1, 0, 0) && i < a.Length ==> a[i] == v
  {
    var y := 0;
    while y < n
      invariant 0 <= y <= n
      invariant forall i :: 0 <= i < LinearIndex(n, x, y, 0) && i < a.Length ==> a[i] == v
    {
      FillRow(a, n, x, y, v);
      y := y + 1;
    }
    SlabEnd(n, x);
  }

  /** The outer loop over x: every entry of the N*N*N buffer becomes v. */
  method FillGrid(a: array<byte>, n: nat, v: byte)
    requires a.Length == Cube(n)
    modifies a
    ensures a[..] == Uniform(Cube(n), v)
  {
    var x := 0;
    while x < n
      invariant 0 <= x <= n
      invariant forall i :: 0 <= i < LinearIndex(n, x, 0, 0) && i < a.Length ==> a[i] == v
    {
      FillSlab(a, n, x, v);
      x := x + 1;
    }
    GridEnd(n);
    UniformPrefix(a[..], v);
  }

  /** A buffer whose every entry is v is the uniform buffer of v. */
  lemma UniformPrefix(s: seq<byte>, v: byte)
    requires forall i :: 0 <= i < |s| ==> s[i] == v
    ensures s == Uniform(|s|, v)
  {
  }

  // ---------------------------------------------------------------------------
  // What a reader of the grid sees

  /**
   * The grid's contents as a value: its side, its density state and bytes,
   * whether it holds a material buffer, its material bytes and its base
   * material. The mesher holds the grid through a const reference and never
   * changes it; the model hands it this value.
   */
  datatype GridView = GridView(num: nat, densityState: FillState, densities: seq<byte>,
                               hasMaterial: bool, materials: seq<byte>, baseFillMat: byte)
  {
    predicate Wf()
    {
      |densities| == Cube(num) && |materials| == Cube(num)
    }

    /** The density at a point: a uniform grid's value, 0 outside a mixed grid, the stored byte over 255 inside. */
    function Density(x: nat, y: nat, z: nat): (r: real)
      requires Wf()
      ensures 0.0 <= r <= 1.0
    {
      if densityState != Mix then (if densityState == All then 1.0 else 0.0)
      else if InRange(num, x, y, z) then FromStored(densities[Slot(num, x, y, z)])
      else 0.0
    }

    /** The material at a point: the base material without a buffer, 0 outside the grid with one. */
    function Material(x: nat, y: nat, z: nat): (r: int)
      requires Wf()
      ensures 0 <= r < 256
    {
      if !hasMaterial then baseFillMat
      else if InRange(num, x, y, z) then materials[Slot(num, x, y, z)]
      else 0
    }
  }

  // ---------------------------------------------------------------------------
  // The grid object

  class VoxelData {
    /** voxel_num: the side N of the lattice. */
    const num: nat
    /** volume_size, as the bit pattern of the float (only copied, never computed with). */
    const size: bv32
    /** LOD_ARRAY_SIZE: the number of LODs the substance cache keeps. */
    const lodCount: nat

    var densityState: FillState
    var densityData: array?<byte>
    var materialData: array?<byte>
    var baseFillMat: byte
    /** substanceCacheLOD[lod].cellList for every LOD. */
    var cellLists: seq<seq<nat>>

    ghost predicate Valid()
      reads this
    {
      && num < 0x8000_0000
      && lodCount >= 1
      && (densityData == null <==> densityState != Mix)
      && (densityData != null ==> densityData.Length == Cube(num))
      && (materialData != null ==> materialData.Length == Cube(num))
      && (densityData != null && materialData != null ==> densityData != materialData)
      && |cellLists| == lodCount
    }

    /** The densities the grid stands for, one byte per linear index. */
    function DensityBytes(): (r: seq<byte>)
      reads this, densityData
      requires Valid()
      ensures |r| == Cube(num)
    {
      if densityData == null then Uniform(Cube(num), FillByte(densityState)) else densityData[..]
    }

    /** The materials the grid stands for, one byte per linear index. */
    function MaterialBytes(): (r: seq<byte>)
      reads this, materialData
      requires Valid()
      ensures |r| == Cube(num)
    {
      if materialData == null then Uniform(Cube(num), baseFillMat) else materialData[..]
    }

    /** The grid as its readers see it. */
    function View(): (v: GridView)
      reads this, densityData, materialData
      requires Valid()
      ensures v.Wf() && v.num == num && v.densityState == densityState
      ensures v.densities == DensityBytes() && v.materials == MaterialBytes()
      ensures v.hasMaterial == (materialData != null) && v.baseFillMat == baseFillMat
    {
      GridView(num, densityState, DensityBytes(), materialData != null, MaterialBytes(), baseFillMat)
    }

    /**
     * VoxelData(num, size). The base material is not initialised by the
     * constructor: the model leaves it unconstrained.
     */
    constructor (num: nat, size: bv32, lodCount: nat)
      requires num < 0x8000_0000 && lodCount >= 1
      ensures Valid()
      ensures this.num == num && this.size == size && this.lodCount == lodCount
      ensures densityState == Zero && densityData == null && materialData == null
      ensures cellLists == seq(lodCount, _ => [])
    {
      this.num := num;
      this.size := size;
      this.lodCount := lodCount;
      densityData := null;
      densityState := Zero;
      materialData := null;
      baseFillMat := *;
      cellLists := seq(lodCount, _ => []);
    }

    /**
     * initializeDensity: allocates the buffer and fills it with the uniform
     * value of the current state, 255 for ALL and 0 for ZERO. The caller then
     * switches the state to MIX.
     */
    method InitializeDensity()
      requires Valid() && densityData == null
      modifies this
      ensures fresh(densityData) && densityData.Length == Cube(num)
      ensures densityData[..] == Uniform(Cube(num), FillByte(densityState))
      ensures densityState == old(densityState) && materialData == old(materialData)
      ensures baseFillMat == old(baseFillMat) && cellLists == old(cellLists)
    {
      var a := new byte[Cube(num)];
      var v: byte := 0;
      if densityState == All {
        v := ToStored(1.0);
      }
      if densityState == Zero {
        v := ToStored(0.0);
      }
      FillGrid(a, num, v);
      densityData := a;
    }

    /**
     * initializeMaterial: allocates the material buffer and fills every entry
     * with the base material.
     */
    method InitializeMaterial()
      requires Valid() && materialData == null
      modifies this
      ensures Valid() && fresh(materialData)
      ensures materialData[..] == Uniform(Cube(num), baseFillMat)
      ensures densityState == old(densityState) && densityData == old(densityData)
      ensures baseFillMat == old(baseFillMat) && cellLists == old(cellLists)
    {
      var a := new byte[Cube(num)];
      FillGrid(a, num, baseFillMat);
      materialData := a;
    }

    /**
     * setDensity. With the buffer absent, writing 0 to a ZERO grid or 1 to an
     * ALL grid changes nothing; any other write allocates the buffer (filled
     * with the uniform value) and switches to MIX, even when the coordinate is
     * out of range and the write itself is dropped. In range, the clamped,
     * quantised density is stored at the one linear index.
     */
    method SetDensity(x: nat, y: nat, z: nat, density: real)
      requires Valid()
      modifies this, densityData
      ensures Valid()
      ensures densityData == null <==> old(densityData) == null && NoOpWrite(old(densityState), density)
      ensures old(densityData) != null ==> densityData == old(densityData)
      ensures old(densityData) == null && densityData != null ==> fresh(densityData)
      ensures densityState == if densityData == null then old(densityState) else Mix
      ensures DensityBytes() ==
        if InRange(num, x, y, z) then old(DensityBytes())[Slot(num, x, y, z) := ToStored(density)]
        else old(DensityBytes())
      ensures materialData == old(materialData) && baseFillMat == old(baseFillMat) && cellLists == old(cellLists)
      ensures MaterialBytes() == old(MaterialBytes())
      ensures InRange(num, x, y, z) ==> GetDensity(x, y, z) == FromStored(ToStored(density))
      ensures forall a: nat, b: nat, c: nat :: InRange(num, a, b, c) && !(a == x && b == y && c == z) ==>
        GetDensity(a, b, c) == old(GetDensity(a, b, c))
    {
      SlotsDistinct(num, x, y, z);
      if densityData == null {
        if densityState == Zero && density == 0.0 {
          return;
        }
        if densityState == All && density == 1.0 {
          return;
        }
        InitializeDensity();
        densityState := Mix;
      }

      if x < num && y < num && z < num {
        LinearIndexBound(num, x, y, z);
        var index := LinearIndex(num, x, y, z);
        var d := density;
        if d < 0.0 {
          d := 0.0;
        }
        if d > 1.0 {
          d := 1.0;
        }
        assert d == Clamp(density);
        densityData[index] := (255.0 * d).Floor;
      }
    }

    /**
     * getDensity: the uniform value (1 for ALL, 0 otherwise) when the buffer is
     * absent, 0 out of range, otherwise the stored byte over 255.
     */
    function GetDensity(x: nat, y: nat, z: nat): (r: real)
      reads this, densityData
      requires Valid()
      ensures r == View().Density(x, y, z)
      ensures InRange(num, x, y, z) ==> r == FromStored(DensityBytes()[Slot(num, x, y, z)])
      ensures !InRange(num, x, y, z) ==> r == if densityState == All then 1.0 else 0.0
    {
      if densityData == null then
        if densityState == All then 1.0 else 0.0
      else if x < num && y < num && z < num then
        LinearIndexBound(num, x, y, z);
        FromStored(densityData[LinearIndex(num, x, y, z)])
      else
        0.0
    }

    /** getRawDensity: the stored byte, with neither a null check nor a bounds check. */
    function GetRawDensity(x: nat, y: nat, z: nat): (r: byte)
      reads this, densityData
      requires Valid() && densityData != null && InRange(num, x, y, z)
      ensures r == RawAt(densityData[..], num, Coord(x, y, z))
      ensures r == DensityBytes()[Slot(num, x, y, z)]
    {
      LinearIndexBound(num, x, y, z);
      densityData[LinearIndex(num, x, y, z)]
    }

    /**
     * setMaterial: allocates the material buffer (filled with the base
     * material) on the first call whatever the value, then stores the material,
     * truncated to a byte, when the coordinate is in range.
     */
    method SetMaterial(x: nat, y: nat, z: nat, material: int)
      requires Valid()
      modifies this, materialData
      ensures Valid() && materialData != null
      ensures old(materialData) != null ==> materialData == old(materialData)
      ensures old(materialData) == null ==> fresh(materialData)
      ensures MaterialBytes() ==
        if InRange(num, x, y, z) then old(MaterialBytes())[Slot(num, x, y, z) := ToByte(material)]
        else old(MaterialBytes())
      ensures densityState == old(densityState) && densityData == old(densityData)
      ensures baseFillMat == old(baseFillMat) && cellLists == old(cellLists)
      ensures DensityBytes() == old(DensityBytes())
      ensures InRange(num, x, y, z) ==> GetMaterial(x, y, z) == ToByte(material) as int
      ensures forall a: nat, b: nat, c: nat :: InRange(num, a, b, c) && !(a == x && b == y && c == z) ==>
        GetMaterial(a, b, c) == old(GetMaterial(a, b, c))
    {
      SlotsDistinct(num, x, y, z);
      if materialData == null {
        InitializeMaterial();
      }

      if x < num && y < num && z < num {
        LinearIndexBound(num, x, y, z);
        var index := LinearIndex(num, x, y, z);
        materialData[index] := material % 256;
      }
    }

    /**
     * getMaterial: the base material when the buffer is absent; with the
     * buffer present, the stored byte in range and 0 (not the base material)
     * out of range.
     */
    function GetMaterial(x: nat, y: nat, z: nat): (r: int)
      reads this, materialData
      requires Valid()
      ensures r == View().Material(x, y, z)
      ensures InRange(num, x, y, z) ==> r == MaterialBytes()[Slot(num, x, y, z)]
      ensures !InRange(num, x, y, z) ==> r == if materialData == null then baseFillMat as int else 0
    {
      if materialData == null then
        baseFillMat
      else if x < num && y < num && z < num then
        LinearIndexBound(num, x, y, z);
        materialData[LinearIndex(num, x, y, z)]
      else
        0
    }

    /**
     * getVoxelPoint: density and material bytes at a coordinate, without a
     * bounds check. The density is 0 whenever the buffer is absent, even for
     * an ALL grid.
     */
    function GetVoxelPoint(x: nat, y: nat, z: nat): (vp: VoxelPoint)
      reads this, densityData, materialData
      requires Valid() && InRange(num, x, y, z)
      ensures vp.material == MaterialBytes()[Slot(num, x, y, z)]
      ensures vp.density == if densityData == null then 0 else DensityBytes()[Slot(num, x, y, z)]
    {
      LinearIndexBound(num, x, y, z);
      var index := LinearIndex(num, x, y, z);
      VoxelPoint(
        if densityData != null then densityData[index] else 0,
        if materialData != null then materialData[index] else baseFillMat)
    }

    /** setVoxelPoint: allocates both buffers if needed and stores both bytes (no bounds check). */
    method SetVoxelPoint(x: nat, y: nat, z: nat, density: byte, material: byte)
      requires Valid() && InRange(num, x, y, z)
      modifies this, densityData, materialData
      ensures Valid() && densityState == Mix && materialData != null
      ensures old(densityData) != null ==> densityData == old(densityData)
      ensures old(densityData) == null ==> fresh(densityData)
      ensures old(materialData) != null ==> materialData == old(materialData)
      ensures old(materialData) == null ==> fresh(materialData)
      ensures DensityBytes() == old(DensityBytes())[Slot(num, x, y, z) := density]
      ensures MaterialBytes() == old(MaterialBytes())[Slot(num, x, y, z) := material]
      ensures baseFillMat == old(baseFillMat) && cellLists == old(cellLists)
    {
      if densityData == null {
        InitializeDensity();
        densityState := Mix;
      }
      if materialData == null {
        InitializeMaterial();
      }
      LinearIndexBound(num, x, y, z);
      var index := LinearIndex(num, x, y, z);
      materialData[index] := material;
      densityData[index] := density;
    }

    /** setVoxelPointDensity: allocates the density buffer if needed and stores the byte (no bounds check). */
    method SetVoxelPointDensity(x: nat, y: nat, z: nat, density: byte)
      requires Valid() && InRange(num, x, y, z)
      modifies this, densityData
      ensures Valid() && densityState == Mix
      ensures old(densityData) != null ==> densityData == old(densityData)
      ensures old(densityData) == null ==> fresh(densityData)
      ensures DensityBytes() == old(DensityBytes())[Slot(num, x, y, z) := density]
      ensures materialData == old(materialData) && baseFillMat == old(baseFillMat) && cellLists == old(cellLists)
      ensures MaterialBytes() == old(MaterialBytes())
    {
      if densityData == null {
        InitializeDensity();
        densityState := Mix;
      }
      LinearIndexBound(num, x, y, z);
      var index := LinearIndex(num, x, y, z);
      densityData[index] := density;
    }

    /** setVoxelPointMaterial: allocates the material buffer if needed and stores the byte (no bounds check). */
    method SetVoxelPointMaterial(x: nat, y: nat, z: nat, material: byte)
      requires Valid() && InRange(num, x, y, z)
      modifies this, materialData
      ensures Valid() && materialData != null
      ensures old(materialData) != null ==> materialData == old(materialData)
      ensures old(materialData) == null ==> fresh(materialData)
      ensures MaterialBytes() == old(MaterialBytes())[Slot(num, x, y, z) := material]
      ensures densityState == old(densityState) && densityData == old(densityData)
      ensures baseFillMat == old(baseFillMat) && cellLists == old(cellLists)
      ensures DensityBytes() == old(DensityBytes())
    {
      if materialData == null {
        InitializeMaterial();
      }
      LinearIndexBound(num, x, y, z);
      var index := LinearIndex(num, x, y, z);
      materialData[index] := material;
    }

    /**
     * deinitializeDensity: collapsing to MIX is refused; collapsing to ZERO or
     * ALL frees the buffer and sets the state.
     */
    method DeinitializeDensity(state: FillState)
      requires Valid()
      modifies this
      ensures Valid()
      ensures state == Mix ==> densityState == old(densityState) && densityData == old(densityData)
      ensures state != Mix ==> densityState == state && densityData == null
      ensures materialData == old(materialData) && baseFillMat == old(baseFillMat) && cellLists == old(cellLists)
    {
      if state == Mix {
        return;
      }
      densityState := state;
      densityData := null;
    }

    /** deinitializeMaterial: frees the material buffer and sets the base material. */
    method DeinitializeMaterial(baseMat: byte)
      requires Valid()
      modifies this
      ensures Valid()
      ensures baseFillMat == baseMat && materialData == null
      ensures densityState == old(densityState) && densityData == old(densityData) && cellLists == old(cellLists)
    {
      baseFillMat := baseMat;
      materialData := null;
    }

    /**
     * performCellSubstanceCaching: appends the near corner of the cell whose
     * far corner is (x, y, z) to the LOD's list exactly when the guards pass
     * and the cell straddles the isolevel.
     */
    method PerformCellSubstanceCaching(x: nat, y: nat, z: nat, lod: nat, step: nat) returns (cached: bool)
      requires Valid() && densityData != null && InRange(num, x, y, z) && lod < lodCount
      modifies this`cellLists
      ensures Valid()
      ensures cached == (CacheGuard(x, y, z, step) && Straddles(densityData[..], num, x, y, z, step))
      ensures cellLists == ProbeCell(old(cellLists), densityData[..], num, x, y, z, lod, step)
    {
      if x <= 0 || y <= 0 || z <= 0 {
        return false;
      }
      if x < step || y < step || z < step {
        return false;
      }

      var rx, ry, rz := x - step, y - step, z - step;
      var density := [
        GetRawDensity(x, y - step, z), GetRawDensity(x, y, z),
        GetRawDensity(x - step, y - step, z), GetRawDensity(x - step, y, z),
        GetRawDensity(x, y - step, z - step), GetRawDensity(x, y, z - step),
        GetRawDensity(rx, ry, rz), GetRawDensity(x - step, y, z - step)];
      CornerBytesRead(densityData[..], num, x, y, z, step, density);

      if AllAbove(density) {
        return false;
      }
      if AllAtOrBelow(density) {
        return false;
      }

      var index := LinearIndex(num, rx, ry, rz);
      assert CacheGuard(x, y, z, step) && Straddles(densityData[..], num, x, y, z, step);
      assert index == NearCorner(num, x, y, z, step);
      cellLists := cellLists[lod := cellLists[lod] + [index]];
      return true;
    }

    /** performSubstanceCacheNoLOD: probes LOD 0 with step 1, unless the buffer is absent. */
    method PerformSubstanceCacheNoLOD(x: nat, y: nat, z: nat)
      requires Valid() && InRange(num, x, y, z)
      modifies this`cellLists
      ensures Valid()
      ensures cellLists ==
        if densityData == null then old(cellLists)
        else ProbeCell(old(cellLists), densityData[..], num, x, y, z, 0, 1)
    {
      if densityData == null {
        return;
      }
      var _ := PerformCellSubstanceCaching(x, y, z, 0, 1);
    }

    /**
     * performSubstanceCacheLOD: unless the buffer is absent, probes every LOD
     * l whose stride 2^l is at most x, y and z and divides all three.
     */
    method PerformSubstanceCacheLOD(x: nat, y: nat, z: nat)
      requires Valid() && InRange(num, x, y, z)
      modifies this`cellLists
      ensures Valid()
      ensures cellLists ==
        if densityData == null then old(cellLists)
        else ProbeLods(old(cellLists), densityData[..], num, x, y, z, lodCount)
    {
      if densityData == null {
        return;
      }
      var lod := 0;
      while lod < lodCount
        invariant 0 <= lod <= lodCount && Valid()
        invariant cellLists == ProbeLods(old(cellLists), densityData[..], num, x, y, z, lod)
      {
        var s := Pow2(lod);
        if x >= s && y >= s && z >= s {
          if x % s == 0 && y % s == 0 && z % s == 0 {
            var _ := PerformCellSubstanceCaching(x, y, z, lod, s);
          }
        }
        lod := lod + 1;
      }
    }
  }

  /** VoxelPoint: the density and material bytes read together. */
  datatype VoxelPoint = VoxelPoint(density: byte, material: byte)
}
