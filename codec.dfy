/**
 * The zone file format of a voxel grid, written by sandboxSaveVoxelData and
 * read back by sandboxLoadVoxelData:
 *
 *   int32 N | float size | density state (0 ZERO, 1 ALL, 2 MIX) | N*N*N density bytes if MIX
 *   | material state (0 uniform, 2 per voxel) | base material | N*N*N material bytes if per voxel
 *   | int32 end marker 666999
 *
 * Multi-byte values are little-endian; the per-voxel bytes come in x-y-z order
 * (z innermost), which is the order of the grid's own buffers. The file is an
 * in-memory byte sequence here; a missing file is None.
 */
module GridCodec {
  import opened Lattice
  import opened Quantize
  import opened VoxelGrid

  datatype Option<T> = None | Some(value: T)

  /** The int32 the saver writes last; the loader reads it and does not check it. */
  const EndMarker: int := 666999

  // ---------------------------------------------------------------------------
  // Four-byte words

  /** A 32-bit word as four bytes, least significant first. */
  function Word(u: nat): (b: seq<byte>)
    requires u < 0x1_0000_0000
    ensures |b| == 4
  {
    [u % 0x100, (u / 0x100) % 0x100, (u / 0x1_0000) % 0x100, u / 0x100_0000]
  }

  /** The word four bytes stand for, least significant first. */
  function WordOf(b: seq<byte>): (u: nat)
    requires |b| == 4
    ensures u < 0x1_0000_0000
  {
    var b0, b1, b2, b3: int := b[0], b[1], b[2], b[3];
    b0 + 0x100 * b1 + 0x1_0000 * b2 + 0x100_0000 * b3
  }

  lemma WordRoundTrip(u: nat)
    requires u < 0x1_0000_0000
    ensures WordOf(Word(u)) == u
  {
    var q1, q2 := u / 0x100, u / 0x1_0000;
    assert u == q1 * 0x100 + u % 0x100;
    assert q1 == (q1 / 0x100) * 0x100 + q1 % 0x100;
    assert q1 / 0x100 == q2;
    assert q2 == (q2 / 0x100) * 0x100 + q2 % 0x100;
    assert q2 / 0x100 == u / 0x100_0000;
  }

  lemma WordOfRoundTrip(b: seq<byte>)
    requires |b| == 4
    ensures Word(WordOf(b)) == b
  {
    var u := WordOf(b);
    var b0, b1, b2, b3: int := b[0], b[1], b[2], b[3];
    DivModUnique(u, 0x100, b1 + 0x100 * b2 + 0x1_0000 * b3, b0);
    DivModUnique(u, 0x1_0000, b2 + 0x100 * b3, b0 + 0x100 * b1);
    DivModUnique(u, 0x100_0000, b3, b0 + 0x100 * b1 + 0x1_0000 * b2);
    DivModUnique(b1 + 0x100 * b2 + 0x1_0000 * b3, 0x100, b2 + 0x100 * b3, b1);
    DivModUnique(b2 + 0x100 * b3, 0x100, b3, b2);
  }

  /** An int32 as the archive writes it: its two's complement word. */
  function Int32Bytes(v: int): (b: seq<byte>)
    requires -0x8000_0000 <= v < 0x8000_0000
    ensures |b| == 4
  {
    Word(if v < 0 then v + 0x1_0000_0000 else v)
  }

  /** The int32 four bytes stand for. */
  function Int32Of(b: seq<byte>): (v: int)
    requires |b| == 4
    ensures -0x8000_0000 <= v < 0x8000_0000
  {
    var u := WordOf(b);
    if u < 0x8000_0000 then u else u - 0x1_0000_0000
  }

  /** Reading back a written int32 gives the value. */
  lemma Int32RoundTrip(v: int)
    requires -0x8000_0000 <= v < 0x8000_0000
    ensures Int32Of(Int32Bytes(v)) == v
  {
    WordRoundTrip(if v < 0 then v + 0x1_0000_0000 else v);
  }

  /** Writing back a read int32 gives the four bytes. */
  lemma Int32BytesOf(b: seq<byte>)
    requires |b| == 4
    ensures Int32Bytes(Int32Of(b)) == b
  {
    WordOfRoundTrip(b);
  }

  // ---------------------------------------------------------------------------
  // The archive reader

  /**
   * A memory reader over the file's bytes, as the bytes not read yet. A read
   * that would run past the end reads nothing and sets the error flag, after
   * which every read fails.
   */
  datatype Reader = Reader(rest: seq<byte>, failed: bool)

  /** A value read and the reader after the read. */
  datatype Got<T> = Got(value: T, next: Reader)

  /** `binaryData << b` for an unsigned char; a failed read yields 0. */
  function ReadByte(r: Reader): (got: Got<byte>)
    ensures !r.failed && |r.rest| >= 1 ==> got == Got(r.rest[0], Reader(r.rest[1..], false))
    ensures r.failed || |r.rest| < 1 ==> got == Got(0, r.(failed := true))
  {
    if r.failed || |r.rest| < 1 then Got(0, r.(failed := true))
    else Got(r.rest[0], Reader(r.rest[1..], false))
  }

  /** Four bytes read as one word; a failed read yields 0. */
  function ReadWord(r: Reader): (got: Got<nat>)
    ensures got.value < 0x1_0000_0000
    ensures !r.failed && |r.rest| >= 4 ==> got == Got(WordOf(r.rest[..4]), Reader(r.rest[4..], false))
    ensures r.failed || |r.rest| < 4 ==> got == Got(0, r.(failed := true))
  {
    if r.failed || |r.rest| < 4 then Got(0, r.(failed := true))
    else Got(WordOf(r.rest[..4]), Reader(r.rest[4..], false))
  }

  /** `binaryData << v` for an int32: the word, read as two's complement. */
  function ReadInt32(r: Reader): (got: Got<int>)
    ensures -0x8000_0000 <= got.value < 0x8000_0000
  {
    var w := ReadWord(r);
    Got(if w.value < 0x8000_0000 then w.value else w.value - 0x1_0000_0000, w.next)
  }

  /** k single-byte reads in a row, as the per-voxel loops do them. */
  function Run(r: Reader, k: nat): (got: Got<seq<byte>>)
    ensures |got.value| == k
  {
    if k == 0 then Got([], r)
    else
      var prev := Run(r, k - 1);
      var b := ReadByte(prev.next);
      Got(prev.value + [b.value], b.next)
  }

  /** Where a run leaves the reader: past what it read, or failed once it ran out. */
  lemma {:induction false} RunState(r: Reader, k: nat)
    ensures !r.failed && k <= |r.rest| ==> Run(r, k).next == Reader(r.rest[k..], false)
    ensures r.failed || k > |r.rest| ==> Run(r, k).next.failed
  {
    if k > 0 {
      RunState(r, k - 1);
      if !r.failed && k <= |r.rest| {
        assert r.rest[k - 1..][1..] == r.rest[k..];
      }
    }
  }

  /**
   * What a run reads: the bytes still in the file, then zeros once the file
   * ends or an earlier read has failed.
   */
  lemma {:induction false} RunBytes(r: Reader, k: nat, i: nat)
    requires i < k
    ensures Run(r, k).value[i] == if !r.failed && i < |r.rest| then r.rest[i] else 0
  {
    if i < k - 1 {
      RunBytes(r, k - 1, i);
    } else {
      RunState(r, k - 1);
    }
  }

  /** A run inside the file reads the file's next bytes. */
  lemma RunAvailable(r: Reader, k: nat)
    requires !r.failed && k <= |r.rest|
    ensures Run(r, k) == Got(r.rest[..k], Reader(r.rest[k..], false))
  {
    RunState(r, k);
    forall i | 0 <= i < k ensures Run(r, k).value[i] == r.rest[..k][i] {
      RunBytes(r, k, i);
    }
    assert Run(r, k).value == r.rest[..k];
  }

  // ---------------------------------------------------------------------------
  // The format

  function StateCode(s: FillState): byte
  {
    match s
    case Zero => 0
    case All => 1
    case Mix => 2
  }

  /** The bytes sandboxSaveVoxelData writes for a grid with the given float size. */
  function Encoded(g: GridView, size: bv32): (data: seq<byte>)
    requires g.Wf() && g.num < 0x8000_0000
  {
    Int32Bytes(g.num) + (Word(size as nat) + (DensityRecord(g) + (MaterialRecord(g) + Int32Bytes(EndMarker))))
  }

  /** The density state, then the density bytes only when the grid is MIX. */
  function DensityRecord(g: GridView): seq<byte>
  {
    [StateCode(g.densityState)] + if g.densityState == Mix then g.densities else []
  }

  /** The material state (2 per voxel, 0 uniform), the base material, then the material bytes only when per voxel. */
  function MaterialRecord(g: GridView): seq<byte>
  {
    [if g.hasMaterial then 2 else 0] + ([g.baseFillMat] + if g.hasMaterial then g.materials else [])
  }

  /** Everything sandboxLoadVoxelData reads from a file, in reading order. */
  datatype Parsed = Parsed(num: int, size: nat, densityCode: byte, densities: seq<byte>,
                           materialCode: byte, baseMat: byte, materials: seq<byte>,
                           endMarker: int, truncated: bool)
  {
    /** The per-voxel sections are as long as the header says, and only present for state 2. */
    predicate Wf()
    {
      && |densities| == (if densityCode == 2 then Cube(Side(num)) else 0)
      && |materials| == (if materialCode == 2 then Cube(Side(num)) else 0)
    }
  }

  /** The side the per-voxel loops run to: the header's N, or none when it is not positive. */
  function Side(num: int): nat
  {
    if num > 0 then num else 0
  }

  /**
   * The reads of the loader: header, density state, N*N*N density bytes
   * only for state 2, material state, base material, N*N*N material bytes
   * only for state 2, end marker.
   */
  function Parse(data: seq<byte>): (p: Parsed)
    ensures p.Wf()
  {
    var num := ReadInt32(Reader(data, false));
    var size := ReadWord(num.next);
    var density := ParseDensity(num.value, size.next);
    var material := ParseMaterial(num.value, density.next);
    var end := ReadInt32(material.next);
    Parsed(num.value, size.value, density.value.0, density.value.1,
           material.value.0, material.value.1, material.value.2, end.value, end.next.failed)
  }

  /** The density half of the file: its state byte, then its section. */
  function ParseDensity(num: int, r: Reader): (got: Got<(byte, seq<byte>)>)
    ensures |got.value.1| == if got.value.0 == 2 then Cube(Side(num)) else 0
  {
    var state := ReadByte(r);
    var section := ReadSection(state.value, Side(num), state.next);
    Got((state.value, section.value), section.next)
  }

  /** The material half of the file: its state byte, the base material, then its section. */
  function ParseMaterial(num: int, r: Reader): (got: Got<(byte, byte, seq<byte>)>)
    ensures |got.value.2| == if got.value.0 == 2 then Cube(Side(num)) else 0
  {
    var state := ReadByte(r);
    var base := ReadByte(state.next);
    var section := ReadSection(state.value, Side(num), base.next);
    Got((state.value, base.value, section.value), section.next)
  }

  /** A per-voxel section: N*N*N single-byte reads for state 2, nothing for any other state. */
  function ReadSection(state: byte, n: nat, r: Reader): (got: Got<seq<byte>>)
    ensures |got.value| == if state == 2 then Cube(n) else 0
  {
    if state == 2 then Run(r, Cube(n)) else Got([], r)
  }

  /**
   * The per-voxel loops index the grid with its own N but run to the file's
   * N; the model loads files whose per-voxel sections match the grid.
   */
  predicate Fits(p: Parsed, n: nat)
  {
    (p.densityCode == 2 || p.materialCode == 2) ==> p.num == n
  }

  /** The grid after the first j density bytes of the MIX loop have been stored. */
  function DensityPrefix(g: GridView, bytes: seq<byte>, j: nat): (r: GridView)
    requires g.Wf() && |bytes| == j <= Cube(g.num)
    ensures r.Wf()
  {
    g.(densityState := if j == 0 then g.densityState else Mix, densities := bytes + g.densities[j..])
  }

  /** The grid after the first j material bytes of the per-voxel loop have been stored. */
  function MaterialPrefix(g: GridView, bytes: seq<byte>, j: nat): (r: GridView)
    requires g.Wf() && |bytes| == j <= Cube(g.num)
    ensures r.Wf()
  {
    g.(hasMaterial := g.hasMaterial || j > 0, materials := bytes + g.materials[j..])
  }

  /**
   * The density half of loading a file: state 0 and 1 collapse the density,
   * state 2 stores every density byte and probes the cache after each, any
   * other state leaves the density and the cache alone. The cache lists are
   * never cleared.
   */
  function LoadDensity(g: GridView, lists: seq<seq<nat>>, state: byte, densities: seq<byte>): (r: (GridView, seq<seq<nat>>))
    requires g.Wf() && |densities| == if state == 2 then Cube(g.num) else 0
    ensures r.0.Wf() && r.0.num == g.num && |r.1| == |lists|
    ensures r.0.hasMaterial == g.hasMaterial && r.0.materials == g.materials && r.0.baseFillMat == g.baseFillMat
  {
    var n := g.num;
    if state == 0 then (g.(densityState := Zero, densities := Uniform(Cube(n), 0)), lists)
    else if state == 1 then (g.(densityState := All, densities := Uniform(Cube(n), 255)), lists)
    else if state == 2 then (DensityPrefix(g, densities, Cube(n)), ScanCache(lists, densities, n, Cube(n)))
    else (g, lists)
  }

  /**
   * The material half: state 2 stores every material byte, any other
   * collapses the material to the file's base material.
   */
  function LoadMaterial(g: GridView, state: byte, baseMat: byte, materials: seq<byte>): (r: GridView)
    requires g.Wf() && |materials| == if state == 2 then Cube(g.num) else 0
    ensures r.Wf() && r.num == g.num
    ensures r.densityState == g.densityState && r.densities == g.densities
  {
    if state == 2 then MaterialPrefix(g, materials, Cube(g.num))
    else g.(hasMaterial := false, baseFillMat := baseMat, materials := Uniform(Cube(g.num), baseMat))
  }

  /** The grid and its cache lists after loading a parsed file: the density, then the material. */
  function Loaded(g: GridView, lists: seq<seq<nat>>, p: Parsed): (r: (GridView, seq<seq<nat>>))
    requires g.Wf() && p.Wf() && Fits(p, g.num)
    ensures r.0.Wf() && r.0.num == g.num && |r.1| == |lists|
  {
    var d := LoadDensity(g, lists, p.densityCode, p.densities);
    (LoadMaterial(d.0, p.materialCode, p.baseMat, p.materials), d.1)
  }

  /** A grid as a VoxelData holds it: absent buffers read as their uniform value. */
  predicate Canonical(g: GridView)
    requires g.Wf()
  {
    && (g.densityState != Mix ==> g.densities == Uniform(Cube(g.num), FillByte(g.densityState)))
    && (!g.hasMaterial ==> g.materials == Uniform(Cube(g.num), g.baseFillMat))
  }

  lemma ViewCanonical(vd: VoxelData)
    requires vd.Valid()
    ensures Canonical(vd.View())
  {
  }

  // ---------------------------------------------------------------------------
  // Reading what was written

  lemma ReadWordOf(u: nat, rest: seq<byte>)
    requires u < 0x1_0000_0000
    ensures ReadWord(Reader(Word(u) + rest, false)) == Got(u, Reader(rest, false))
  {
    WordRoundTrip(u);
  }

  lemma ReadInt32Of(v: int, rest: seq<byte>)
    requires -0x8000_0000 <= v < 0x8000_0000
    ensures ReadInt32(Reader(Int32Bytes(v) + rest, false)) == Got(v, Reader(rest, false))
  {
    ReadWordOf(if v < 0 then v + 0x1_0000_0000 else v, rest);
  }

  lemma RunOf(bytes: seq<byte>, rest: seq<byte>)
    ensures Run(Reader(bytes + rest, false), |bytes|) == Got(bytes, Reader(rest, false))
  {
    RunAvailable(Reader(bytes + rest, false), |bytes|);
  }

  /**
   * Parsing what the saver wrote reads back the header, both states, the
   * per-voxel bytes that were written and the end marker, without running
   * out of file.
   */
  lemma ParseEncoded(g: GridView, size: bv32)
    requires g.Wf() && g.num < 0x8000_0000
    ensures Parse(Encoded(g, size)) == Parsed(
      g.num, size as nat, StateCode(g.densityState), if g.densityState == Mix then g.densities else [],
      if g.hasMaterial then 2 else 0, g.baseFillMat, if g.hasMaterial then g.materials else [],
      EndMarker, false)
  {
    var r2 := DensityRecord(g) + (MaterialRecord(g) + Int32Bytes(EndMarker));
    var r1 := Word(size as nat) + r2;
    ReadInt32Of(g.num, r1);
    ReadWordOf(size as nat, r2);
    ParseDensityOf(g, MaterialRecord(g) + Int32Bytes(EndMarker));
    ParseMaterialOf(g, Int32Bytes(EndMarker));
    ReadInt32Of(EndMarker, []);
    assert Int32Bytes(EndMarker) == Int32Bytes(EndMarker) + [];
  }

  /** Reading the density record the saver wrote gives back its state and section. */
  lemma ParseDensityOf(g: GridView, rest: seq<byte>)
    requires g.Wf()
    ensures ParseDensity(g.num, Reader(DensityRecord(g) + rest, false)) ==
      Got((StateCode(g.densityState), if g.densityState == Mix then g.densities else []), Reader(rest, false))
  {
    var state := StateCode(g.densityState);
    var section := if g.densityState == Mix then g.densities else [];
    assert DensityRecord(g) + rest == [state] + (section + rest);
    ReadByteOf(state, section + rest);
    ReadSectionOf(state, Side(g.num), section, rest);
  }

  /** Reading the material record the saver wrote gives back its state, base material and section. */
  lemma ParseMaterialOf(g: GridView, rest: seq<byte>)
    requires g.Wf()
    ensures ParseMaterial(g.num, Reader(MaterialRecord(g) + rest, false)) ==
      Got((if g.hasMaterial then 2 else 0, g.baseFillMat, if g.hasMaterial then g.materials else []), Reader(rest, false))
  {
    var state: byte := if g.hasMaterial then 2 else 0;
    var section := if g.hasMaterial then g.materials else [];
    assert MaterialRecord(g) + rest == [state] + ([g.baseFillMat] + (section + rest));
    ReadByteOf(state, [g.baseFillMat] + (section + rest));
    ReadByteOf(g.baseFillMat, section + rest);
    ReadSectionOf(state, Side(g.num), section, rest);
  }

  lemma ReadByteOf(b: byte, rest: seq<byte>)
    ensures ReadByte(Reader([b] + rest, false)) == Got(b, Reader(rest, false))
  {
    assert ([b] + rest)[1..] == rest;
  }

  lemma ReadSectionOf(state: byte, n: nat, bytes: seq<byte>, rest: seq<byte>)
    requires |bytes| == if state == 2 then Cube(n) else 0
    ensures ReadSection(state, n, Reader(bytes + rest, false)) == Got(bytes, Reader(rest, false))
  {
    if state == 2 {
      RunOf(bytes, rest);
    } else {
      assert bytes + rest == rest;
    }
  }

  /**
   * The round trip: loading what was saved from a grid into a grid of the
   * same side, with at least one voxel, restores the density state and bytes,
   * whether materials are per voxel and the material bytes; the base material
   * is restored only when materials are uniform. A MIX file also probes the
   * cache at every point, over the loaded bytes.
   */
  lemma LoadSaved(g: GridView, size: bv32, h: GridView, lists: seq<seq<nat>>)
    requires g.Wf() && Canonical(g) && 0 < g.num < 0x8000_0000
    requires h.Wf() && h.num == g.num
    ensures var p := Parse(Encoded(g, size));
      && |Encoded(g, size)| > 0 && !p.truncated && p.endMarker == EndMarker && Fits(p, h.num)
      && Loaded(h, lists, p) ==
        (g.(baseFillMat := if g.hasMaterial then h.baseFillMat else g.baseFillMat),
         if g.densityState == Mix then ScanCache(lists, g.densities, g.num, Cube(g.num)) else lists)
  {
    ParseEncoded(g, size);
    var p := Parse(Encoded(g, size));
    var n := g.num;
    assert Cube(n) > 0 by {
      Unfold(n, 0, 0, 0);
      MulAtLeast(n, n);
      MulAtLeast(n * n, n);
    }
    var d := LoadDensity(h, lists, p.densityCode, p.densities);
    DensityRestored(g, h, lists, p);
    MaterialRestored(g, d.0, p);
  }

  lemma DensityRestored(g: GridView, h: GridView, lists: seq<seq<nat>>, p: Parsed)
    requires g.Wf() && Canonical(g) && Cube(g.num) > 0
    requires h.Wf() && h.num == g.num && p.Wf() && Fits(p, g.num)
    requires p.densityCode == StateCode(g.densityState) && p.densities == if g.densityState == Mix then g.densities else []
    ensures LoadDensity(h, lists, p.densityCode, p.densities).0 == h.(densityState := g.densityState, densities := g.densities)
    ensures LoadDensity(h, lists, p.densityCode, p.densities).1 == if g.densityState == Mix then ScanCache(lists, g.densities, g.num, Cube(g.num)) else lists
  {
    assert h.densities[Cube(g.num)..] == [];
  }

  lemma MaterialRestored(g: GridView, h: GridView, p: Parsed)
    requires g.Wf() && Canonical(g) && Cube(g.num) > 0
    requires h.Wf() && h.num == g.num && p.Wf() && Fits(p, g.num)
    requires p.materialCode == (if g.hasMaterial then 2 else 0) && p.baseMat == g.baseFillMat
    requires p.materials == if g.hasMaterial then g.materials else []
    ensures LoadMaterial(h, p.materialCode, p.baseMat, p.materials) == h.(hasMaterial := g.hasMaterial, materials := g.materials,
      baseFillMat := if g.hasMaterial then h.baseFillMat else g.baseFillMat)
  {
    assert h.materials[Cube(g.num)..] == [];
  }

  /** A file with an unknown density state leaves the density and the cache alone. */
  lemma UnknownDensityState(g: GridView, lists: seq<seq<nat>>, p: Parsed)
    requires g.Wf() && p.Wf() && Fits(p, g.num) && p.densityCode > 2
    ensures Loaded(g, lists, p).0.densityState == g.densityState
    ensures Loaded(g, lists, p).0.densities == g.densities
    ensures Loaded(g, lists, p).1 == lists
  {
  }

  /**
   * Loading a MIX file adds to each LOD's list exactly the near corners of
   * the loaded cells that straddle the isolevel at that LOD's stride.
   */
  lemma LoadedCache(g: GridView, lists: seq<seq<nat>>, p: Parsed, l: nat)
    requires g.Wf() && p.Wf() && Fits(p, g.num) && p.densityCode == 2 && l < |lists|
    ensures Loaded(g, lists, p).1[l] == lists[l] + ScanLod(p.densities, g.num, l, Cube(g.num))
  {
    ScanCacheEffect(lists, p.densities, g.num, Cube(g.num), l);
  }

  // ---------------------------------------------------------------------------
  // Saving

  /**
   * The linear index of a point the x-y-z loops reach: inside a row, the end
   * of a row, or the end of a slab. It never passes the buffer size.
   */
  function Mark(n: nat, x: nat, y: nat, z: nat): (j: nat)
    requires (x < n && y < n && z <= n) || (x < n && y <= n && z == 0) || (x <= n && y == 0 && z == 0)
    ensures j == LinearIndex(n, x, y, z) && j <= Cube(n)
  {
    GridEnd(n);
    if x == n then
      LinearIndex(n, x, y, z)
    else
      SlabEnd(n, x);
      LinearIndexMonotone(n, x + 1, 0, 0, n, 0, 0);
      if y == n then
        LinearIndex(n, x, y, z)
      else
        RowEnd(n, x, y);
        LinearIndexMonotone(n, x, y + 1, 0, x, n, 0);
        LinearIndexMonotone(n, x, y, z, x, y, n);
        LinearIndex(n, x, y, z)
  }

  /** The bytes one per-voxel section of the saver writes: the material or the density buffer. */
  ghost predicate Section(vd: VoxelData, material: bool, bytes: seq<byte>)
    reads vd, vd.densityData, vd.materialData
  {
    && vd.Valid() && (material || vd.densityData != null)
    && bytes == if material then vd.MaterialBytes() else vd.DensityBytes()
  }

  /** The row loop of a per-voxel section: appends the bytes of (x, y, 0..N-1). */
  method WriteRow(vd: VoxelData, material: bool, x: nat, y: nat, data: seq<byte>,
                  ghost pre: seq<byte>, ghost bytes: seq<byte>) returns (out: seq<byte>)
    requires Section(vd, material, bytes) && x < vd.num && y < vd.num
    requires data == pre + bytes[..Mark(vd.num, x, y, 0)]
    ensures out == pre + bytes[..Mark(vd.num, x, y + 1, 0)]
  {
    out := data;
    var z := 0;
    while z < vd.num
      invariant z <= vd.num && out == pre + bytes[..Mark(vd.num, x, y, z)]
    {
      var vp := vd.GetVoxelPoint(x, y, z);
      var b := if material then vp.material else vp.density;
      ghost var i := Slot(vd.num, x, y, z);
      assert bytes[..i + 1] == bytes[..i] + [b];
      out := out + [b];
      z := z + 1;
    }
    RowEnd(vd.num, x, y);
  }

  /** The y loop of a per-voxel section. */
  method WriteSlab(vd: VoxelData, material: bool, x: nat, data: seq<byte>,
                   ghost pre: seq<byte>, ghost bytes: seq<byte>) returns (out: seq<byte>)
    requires Section(vd, material, bytes) && x < vd.num
    requires data == pre + bytes[..Mark(vd.num, x, 0, 0)]
    ensures out == pre + bytes[..Mark(vd.num, x + 1, 0, 0)]
  {
    out := data;
    var y := 0;
    while y < vd.num
      invariant y <= vd.num && out == pre + bytes[..Mark(vd.num, x, y, 0)]
    {
      out := WriteRow(vd, material, x, y, out, pre, bytes);
      y := y + 1;
    }
    SlabEnd(vd.num, x);
  }

  /**
   * One per-voxel section of the saver: the density (or material) byte of
   * every point, x outermost, z innermost, read with getVoxelPoint.
   */
  method WriteGrid(vd: VoxelData, material: bool, data: seq<byte>, ghost bytes: seq<byte>) returns (out: seq<byte>)
    requires Section(vd, material, bytes)
    ensures out == data + bytes
  {
    out := data;
    var x := 0;
    while x < vd.num
      invariant x <= vd.num && out == data + bytes[..Mark(vd.num, x, 0, 0)]
    {
      out := WriteSlab(vd, material, x, out, data, bytes);
      x := x + 1;
    }
    GridEnd(vd.num);
    assert bytes[..Mark(vd.num, x, 0, 0)] == bytes;
  }

  /**
   * sandboxSaveVoxelData, with the archive's bytes as the result instead of
   * a file: each field is written in turn, in the order of the format.
   */
  method Save(vd: VoxelData) returns (data: seq<byte>)
    requires vd.Valid()
    ensures data == Encoded(vd.View(), vd.size)
  {
    var num := vd.num;
    var densityState: byte := 0;
    var densities: seq<byte> := [];
    if vd.densityState == Zero {
      densityState := 0;
    }
    if vd.densityState == All {
      densityState := 1;
    }
    if vd.densityState == Mix {
      densityState := 2;
      densities := WriteGrid(vd, false, [], vd.DensityBytes());
    }
    var materialState: byte;
    if vd.materialData == null {
      materialState := 0;
    } else {
      materialState := 2;
    }
    var baseMat := vd.baseFillMat;
    var materials: seq<byte> := [];
    if materialState == 2 {
      materials := WriteGrid(vd, true, [], vd.MaterialBytes());
    }
    ghost var g := vd.View();
    assert [densityState] + densities == DensityRecord(g);
    assert [materialState] + ([baseMat] + materials) == MaterialRecord(g);
    data := Int32Bytes(num) + (Word(vd.size as nat) + (([densityState] + densities)
      + (([materialState] + ([baseMat] + materials)) + Int32Bytes(EndMarker))));
  }

  // ---------------------------------------------------------------------------
  // Loading

  /** Storing byte b at position |vals| of a partly loaded buffer extends the loaded part by b. */
  lemma Splice(vals: seq<byte>, b: byte, rest: seq<byte>)
    requires |vals| < |rest|
    ensures (vals + rest[|vals|..])[|vals| := b] == (vals + [b]) + rest[|vals| + 1..]
  {
    var j := |vals|;
    assert rest[j..] == [rest[j]] + rest[j + 1..];
  }

  /**
   * The density loop after j points: the reader has read j bytes past r0,
   * the grid holds them in its first j slots over the grid g0 it started
   * from, and the cache lists hold l0 followed by the probes of those j points.
   */
  ghost predicate DensityLoading(vd: VoxelData, g0: GridView, l0: seq<seq<nat>>, r0: Reader, r: Reader, j: nat)
    reads vd, vd.densityData, vd.materialData
  {
    && vd.Valid() && g0.Wf() && g0.num == vd.num && j <= Cube(vd.num) && |l0| == vd.lodCount
    && r == Run(r0, j).next
    && vd.DensityBytes() == Run(r0, j).value + g0.densities[j..]
    && vd.densityState == (if j == 0 then g0.densityState else Mix)
    && vd.MaterialBytes() == g0.materials && (vd.materialData != null) == g0.hasMaterial
    && vd.baseFillMat == g0.baseFillMat
    && vd.cellLists == ScanCache(l0, vd.DensityBytes(), vd.num, j)
  }

  /**
   * One point of the density loop on values: the byte read at position j
   * extends the run, storing it extends the loaded prefix, and probing at
   * the point extends the scan.
   */
  lemma DensityStep(g0: GridView, l0: seq<seq<nat>>, r0: Reader, n: nat, x: nat, y: nat, z: nat,
                    before: seq<byte>, lists: seq<seq<nat>>)
    requires g0.Wf() && g0.num == n && InRange(n, x, y, z)
    requires before == Run(r0, Slot(n, x, y, z)).value + g0.densities[Slot(n, x, y, z)..]
    requires lists == ScanCache(l0, before, n, Slot(n, x, y, z))
    ensures var j, b := Slot(n, x, y, z), ReadByte(Run(r0, Slot(n, x, y, z)).next);
      && b.next == Run(r0, j + 1).next
      && before[j := b.value] == Run(r0, j + 1).value + g0.densities[j + 1..]
      && ProbeLods(lists, before[j := b.value], n, x, y, z, |l0|) == ScanCache(l0, before[j := b.value], n, j + 1)
  {
    var j := Slot(n, x, y, z);
    var b := ReadByte(Run(r0, j).next);
    var after := before[j := b.value];
    Splice(Run(r0, j).value, b.value, g0.densities);
    ScanCacheAgree(l0, before, after, n, j);
    DecodeLinearIndex(n, x, y, z);
  }

  /**
   * The density loop's state after one more point: the grid now holds the
   * byte b read at the point over the bytes it held before, and the cache
   * lists have been probed at the point.
   */
  lemma DensityLoadingNext(vd: VoxelData, g0: GridView, l0: seq<seq<nat>>, r0: Reader, x: nat, y: nat, z: nat,
                           before: seq<byte>, lists: seq<seq<nat>>, b: Got<byte>)
    requires g0.Wf() && g0.num == vd.num && InRange(vd.num, x, y, z) && |l0| == vd.lodCount
    requires b == ReadByte(Run(r0, Mark(vd.num, x, y, z)).next)
    requires before == Run(r0, Mark(vd.num, x, y, z)).value + g0.densities[Mark(vd.num, x, y, z)..]
    requires lists == ScanCache(l0, before, vd.num, Mark(vd.num, x, y, z))
    requires vd.Valid() && vd.densityState == Mix
    requires vd.DensityBytes() == before[Slot(vd.num, x, y, z) := b.value]
    requires vd.cellLists == ProbeLods(lists, vd.DensityBytes(), vd.num, x, y, z, vd.lodCount)
    requires vd.MaterialBytes() == g0.materials && (vd.materialData != null) == g0.hasMaterial
    requires vd.baseFillMat == g0.baseFillMat
    ensures DensityLoading(vd, g0, l0, r0, b.next, Mark(vd.num, x, y, z + 1))
  {
    assert Mark(vd.num, x, y, z) == Slot(vd.num, x, y, z) && Mark(vd.num, x, y, z + 1) == Slot(vd.num, x, y, z) + 1;
    DensityStep(g0, l0, r0, vd.num, x, y, z, before, lists);
  }

  /** The body of the density loop: read a byte, store it, probe the cache at the point. */
  method LoadDensityAt(vd: VoxelData, x: nat, y: nat, z: nat, r: Reader) returns (next: Reader)
    requires vd.Valid() && InRange(vd.num, x, y, z)
    modifies vd, vd.densityData
    ensures vd.Valid() && next == ReadByte(r).next
    ensures vd.DensityBytes() == old(vd.DensityBytes())[Slot(vd.num, x, y, z) := ReadByte(r).value]
    ensures vd.densityState == Mix && vd.cellLists == ProbeLods(old(vd.cellLists), vd.DensityBytes(), vd.num, x, y, z, vd.lodCount)
    ensures vd.MaterialBytes() == old(vd.MaterialBytes()) && vd.materialData == old(vd.materialData)
    ensures vd.baseFillMat == old(vd.baseFillMat)
    ensures vd.densityData == old(vd.densityData) || fresh(vd.densityData)
  {
    var density := ReadByte(r);
    vd.SetVoxelPointDensity(x, y, z, density.value);
    vd.PerformSubstanceCacheLOD(x, y, z);
    next := density.next;
  }

  method LoadDensityRow(vd: VoxelData, x: nat, y: nat, r: Reader,
                        ghost g0: GridView, ghost l0: seq<seq<nat>>, ghost r0: Reader) returns (next: Reader)
    requires x < vd.num && y < vd.num && DensityLoading(vd, g0, l0, r0, r, Mark(vd.num, x, y, 0))
    modifies vd, vd.densityData
    ensures DensityLoading(vd, g0, l0, r0, next, Mark(vd.num, x, y + 1, 0))
    ensures vd.densityData == old(vd.densityData) || fresh(vd.densityData)
    ensures vd.materialData == old(vd.materialData)
  {
    next := r;
    var z := 0;
    while z < vd.num
      invariant z <= vd.num && DensityLoading(vd, g0, l0, r0, next, Mark(vd.num, x, y, z))
      invariant vd.densityData == old(vd.densityData) || fresh(vd.densityData)
      invariant vd.materialData == old(vd.materialData)
    {
      ghost var before, lists := vd.DensityBytes(), vd.cellLists;
      ghost var b := ReadByte(next);
      next := LoadDensityAt(vd, x, y, z, next);
      DensityLoadingNext(vd, g0, l0, r0, x, y, z, before, lists, b);
      z := z + 1;
    }
    RowEnd(vd.num, x, y);
    assert Mark(vd.num, x, y, z) == Mark(vd.num, x, y + 1, 0);
  }

  method LoadDensitySlab(vd: VoxelData, x: nat, r: Reader,
                         ghost g0: GridView, ghost l0: seq<seq<nat>>, ghost r0: Reader) returns (next: Reader)
    requires x < vd.num && DensityLoading(vd, g0, l0, r0, r, Mark(vd.num, x, 0, 0))
    modifies vd, vd.densityData
    ensures DensityLoading(vd, g0, l0, r0, next, Mark(vd.num, x + 1, 0, 0))
    ensures vd.densityData == old(vd.densityData) || fresh(vd.densityData)
    ensures vd.materialData == old(vd.materialData)
  {
    next := r;
    var y := 0;
    while y < vd.num
      invariant y <= vd.num && DensityLoading(vd, g0, l0, r0, next, Mark(vd.num, x, y, 0))
      invariant vd.densityData == old(vd.densityData) || fresh(vd.densityData)
      invariant vd.materialData == old(vd.materialData)
    {
      next := LoadDensityRow(vd, x, y, next, g0, l0, r0);
      y := y + 1;
    }
    SlabEnd(vd.num, x);
    assert Mark(vd.num, x, y, 0) == Mark(vd.num, x + 1, 0, 0);
  }

  /** The x loop of the density branch: all N slabs, from the first point to the last. */
  method LoadDensityGrid(vd: VoxelData, r: Reader,
                         ghost g0: GridView, ghost l0: seq<seq<nat>>, ghost r0: Reader) returns (next: Reader)
    requires DensityLoading(vd, g0, l0, r0, r, 0)
    modifies vd, vd.densityData
    ensures DensityLoading(vd, g0, l0, r0, next, Cube(vd.num))
    ensures vd.densityData == old(vd.densityData) || fresh(vd.densityData)
    ensures vd.materialData == old(vd.materialData)
  {
    assert Mark(vd.num, 0, 0, 0) == 0;
    next := r;
    var x := 0;
    while x < vd.num
      invariant x <= vd.num && DensityLoading(vd, g0, l0, r0, next, Mark(vd.num, x, 0, 0))
      invariant vd.densityData == old(vd.densityData) || fresh(vd.densityData)
      invariant vd.materialData == old(vd.materialData)
    {
      next := LoadDensitySlab(vd, x, next, g0, l0, r0);
      x := x + 1;
    }
    GridEnd(vd.num);
    assert Mark(vd.num, x, 0, 0) == Cube(vd.num);
  }

  /**
   * The MIX branch of the loader: N*N*N density bytes in x-y-z order, each
   * stored with setVoxelPointDensity and followed by a cache probe at its point.
   */
  method LoadDensities(vd: VoxelData, num: int, r: Reader) returns (next: Reader)
    requires vd.Valid() && num == vd.num
    modifies vd, vd.densityData
    ensures vd.Valid() && vd.materialData == old(vd.materialData)
    ensures next == Run(r, Cube(vd.num)).next
    ensures vd.View() == DensityPrefix(old(vd.View()), Run(r, Cube(vd.num)).value, Cube(vd.num))
    ensures vd.cellLists == ScanCache(old(vd.cellLists), Run(r, Cube(vd.num)).value, vd.num, Cube(vd.num))
  {
    ghost var g0, l0 := vd.View(), vd.cellLists;
    DensitiesStart(vd, r);
    next := LoadDensityGrid(vd, r, g0, l0, r);
    DensitiesLoaded(vd, g0, l0, r, next);
  }

  /** Before the first point, nothing has been read or stored. */
  lemma DensitiesStart(vd: VoxelData, r: Reader)
    requires vd.Valid()
    ensures DensityLoading(vd, vd.View(), vd.cellLists, r, r, 0)
  {
    assert [] + vd.View().densities[0..] == vd.View().densities;
  }

  /** Once every point is loaded, the grid's densities are exactly the bytes read. */
  lemma DensitiesLoaded(vd: VoxelData, g0: GridView, l0: seq<seq<nat>>, r0: Reader, r: Reader)
    requires DensityLoading(vd, g0, l0, r0, r, Cube(vd.num))
    ensures r == Run(r0, Cube(vd.num)).next
    ensures vd.View() == DensityPrefix(g0, Run(r0, Cube(vd.num)).value, Cube(vd.num))
    ensures vd.cellLists == ScanCache(l0, Run(r0, Cube(vd.num)).value, vd.num, Cube(vd.num))
  {
    var n := Cube(vd.num);
    var vals, rest := Run(r0, n).value, g0.densities[n..];
    assert rest == [] && vals + rest == vals;
    assert vd.DensityBytes() == vd.View().densities == DensityPrefix(g0, vals, n).densities == vals + rest;
  }

  /** The material loop after j points: j bytes read past r0 and stored over g0; the cache untouched. */
  ghost predicate MaterialLoading(vd: VoxelData, g0: GridView, l0: seq<seq<nat>>, r0: Reader, r: Reader, j: nat)
    reads vd, vd.densityData, vd.materialData
  {
    && vd.Valid() && g0.Wf() && g0.num == vd.num && j <= Cube(vd.num)
    && r == Run(r0, j).next
    && vd.MaterialBytes() == Run(r0, j).value + g0.materials[j..]
    && (vd.materialData != null) == (g0.hasMaterial || j > 0)
    && vd.baseFillMat == g0.baseFillMat
    && vd.DensityBytes() == g0.densities && vd.densityState == g0.densityState
    && vd.cellLists == l0
  }

  lemma MaterialsStart(vd: VoxelData, r: Reader)
    requires vd.Valid()
    ensures MaterialLoading(vd, vd.View(), vd.cellLists, r, r, 0)
  {
    assert [] + vd.View().materials[0..] == vd.View().materials;
  }

  /** The material loop's state after one more point: the grid now holds the byte b read at the point. */
  lemma MaterialLoadingNext(vd: VoxelData, g0: GridView, l0: seq<seq<nat>>, r0: Reader, x: nat, y: nat, z: nat,
                            before: seq<byte>, b: Got<byte>)
    requires g0.Wf() && g0.num == vd.num && InRange(vd.num, x, y, z)
    requires b == ReadByte(Run(r0, Mark(vd.num, x, y, z)).next)
    requires before == Run(r0, Mark(vd.num, x, y, z)).value + g0.materials[Mark(vd.num, x, y, z)..]
    requires vd.Valid() && vd.materialData != null
    requires vd.MaterialBytes() == before[Slot(vd.num, x, y, z) := b.value]
    requires vd.DensityBytes() == g0.densities && vd.densityState == g0.densityState
    requires vd.baseFillMat == g0.baseFillMat && vd.cellLists == l0
    ensures MaterialLoading(vd, g0, l0, r0, b.next, Mark(vd.num, x, y, z + 1))
  {
    var j := Slot(vd.num, x, y, z);
    assert Mark(vd.num, x, y, z) == j && Mark(vd.num, x, y, z + 1) == j + 1;
    Splice(Run(r0, j).value, b.value, g0.materials);
  }

  /** The body of the material loop: read a byte and store it with setVoxelPointMaterial. */
  method LoadMaterialAt(vd: VoxelData, x: nat, y: nat, z: nat, r: Reader) returns (next: Reader)
    requires vd.Valid() && InRange(vd.num, x, y, z)
    modifies vd, vd.materialData
    ensures vd.Valid() && next == ReadByte(r).next && vd.materialData != null
    ensures vd.MaterialBytes() == old(vd.MaterialBytes())[Slot(vd.num, x, y, z) := ReadByte(r).value]
    ensures vd.DensityBytes() == old(vd.DensityBytes()) && vd.densityState == old(vd.densityState)
    ensures vd.baseFillMat == old(vd.baseFillMat) && vd.cellLists == old(vd.cellLists)
    ensures vd.materialData == old(vd.materialData) || fresh(vd.materialData)
  {
    var material := ReadByte(r);
    vd.SetVoxelPointMaterial(x, y, z, material.value);
    next := material.next;
  }

  method LoadMaterialRow(vd: VoxelData, x: nat, y: nat, r: Reader,
                         ghost g0: GridView, ghost l0: seq<seq<nat>>, ghost r0: Reader) returns (next: Reader)
    requires x < vd.num && y < vd.num && MaterialLoading(vd, g0, l0, r0, r, Mark(vd.num, x, y, 0))
    modifies vd, vd.materialData
    ensures MaterialLoading(vd, g0, l0, r0, next, Mark(vd.num, x, y + 1, 0))
    ensures vd.materialData == old(vd.materialData) || fresh(vd.materialData)
  {
    next := r;
    var z := 0;
    while z < vd.num
      invariant z <= vd.num && MaterialLoading(vd, g0, l0, r0, next, Mark(vd.num, x, y, z))
      invariant vd.materialData == old(vd.materialData) || fresh(vd.materialData)
    {
      ghost var before := vd.MaterialBytes();
      ghost var b := ReadByte(next);
      next := LoadMaterialAt(vd, x, y, z, next);
      MaterialLoadingNext(vd, g0, l0, r0, x, y, z, before, b);
      z := z + 1;
    }
    RowEnd(vd.num, x, y);
    assert Mark(vd.num, x, y, z) == Mark(vd.num, x, y + 1, 0);
  }

  method LoadMaterialSlab(vd: VoxelData, x: nat, r: Reader,
                          ghost g0: GridView, ghost l0: seq<seq<nat>>, ghost r0: Reader) returns (next: Reader)
    requires x < vd.num && MaterialLoading(vd, g0, l0, r0, r, Mark(vd.num, x, 0, 0))
    modifies vd, vd.materialData
    ensures MaterialLoading(vd, g0, l0, r0, next, Mark(vd.num, x + 1, 0, 0))
    ensures vd.materialData == old(vd.materialData) || fresh(vd.materialData)
  {
    next := r;
    var y := 0;
    while y < vd.num
      invariant y <= vd.num && MaterialLoading(vd, g0, l0, r0, next, Mark(vd.num, x, y, 0))
      invariant vd.materialData == old(vd.materialData) || fresh(vd.materialData)
    {
      next := LoadMaterialRow(vd, x, y, next, g0, l0, r0);
      y := y + 1;
    }
    SlabEnd(vd.num, x);
    assert Mark(vd.num, x, y, 0) == Mark(vd.num, x + 1, 0, 0);
  }

  /** The x loop of the material branch. */
  method LoadMaterialGrid(vd: VoxelData, r: Reader,
                          ghost g0: GridView, ghost l0: seq<seq<nat>>, ghost r0: Reader) returns (next: Reader)
    requires MaterialLoading(vd, g0, l0, r0, r, 0)
    modifies vd, vd.materialData
    ensures MaterialLoading(vd, g0, l0, r0, next, Cube(vd.num))
    ensures vd.materialData == old(vd.materialData) || fresh(vd.materialData)
  {
    assert Mark(vd.num, 0, 0, 0) == 0;
    next := r;
    var x := 0;
    while x < vd.num
      invariant x <= vd.num && MaterialLoading(vd, g0, l0, r0, next, Mark(vd.num, x, 0, 0))
      invariant vd.materialData == old(vd.materialData) || fresh(vd.materialData)
    {
      next := LoadMaterialSlab(vd, x, next, g0, l0, r0);
      x := x + 1;
    }
    GridEnd(vd.num);
    assert Mark(vd.num, x, 0, 0) == Cube(vd.num);
  }

  /** The per-voxel material branch of the loader: N*N*N material bytes in x-y-z order. */
  method LoadMaterials(vd: VoxelData, num: int, r: Reader) returns (next: Reader)
    requires vd.Valid() && num == vd.num
    modifies vd, vd.materialData
    ensures vd.Valid() && vd.cellLists == old(vd.cellLists)
    ensures next == Run(r, Cube(vd.num)).next
    ensures vd.View() == MaterialPrefix(old(vd.View()), Run(r, Cube(vd.num)).value, Cube(vd.num))
  {
    ghost var g0, l0 := vd.View(), vd.cellLists;
    MaterialsStart(vd, r);
    next := LoadMaterialGrid(vd, r, g0, l0, r);
    MaterialsLoaded(vd, g0, l0, r, next);
  }

  /** Once every point is loaded, the grid's materials are exactly the bytes read. */
  lemma MaterialsLoaded(vd: VoxelData, g0: GridView, l0: seq<seq<nat>>, r0: Reader, r: Reader)
    requires MaterialLoading(vd, g0, l0, r0, r, Cube(vd.num))
    ensures r == Run(r0, Cube(vd.num)).next
    ensures vd.View() == MaterialPrefix(g0, Run(r0, Cube(vd.num)).value, Cube(vd.num))
  {
    var n := Cube(vd.num);
    var vals, rest := Run(r0, n).value, g0.materials[n..];
    assert rest == [] && vals + rest == vals;
  }

  /**
   * The density half of the loader: the state byte, then deinitializeDensity
   * for 0 and 1, or the per-voxel loop for 2; any other state does nothing.
   */
  method LoadDensitySection(vd: VoxelData, num: int, r: Reader) returns (next: Reader)
    requires vd.Valid() && (ReadByte(r).value == 2 ==> num == vd.num)
    modifies vd, vd.densityData
    ensures vd.Valid() && vd.materialData == old(vd.materialData)
    ensures var d := ParseDensity(num, r);
      && next == d.next
      && (vd.View(), vd.cellLists) == LoadDensity(old(vd.View()), old(vd.cellLists), d.value.0, d.value.1)
  {
    var state := ReadByte(r);
    next := state.next;
    var volumeState := state.value;
    if volumeState == 0 {
      vd.DeinitializeDensity(Zero);
    }
    if volumeState == 1 {
      vd.DeinitializeDensity(All);
    }
    if volumeState == 2 {
      next := LoadDensities(vd, num, next);
    }
  }

  /**
   * The material half of the loader: the state byte and the base material,
   * then the per-voxel loop for state 2 or deinitializeMaterial otherwise.
   */
  method LoadMaterialSection(vd: VoxelData, num: int, r: Reader) returns (next: Reader)
    requires vd.Valid() && (ReadByte(r).value == 2 ==> num == vd.num)
    modifies vd, vd.materialData
    ensures vd.Valid() && vd.cellLists == old(vd.cellLists)
    ensures var m := ParseMaterial(num, r);
      && next == m.next
      && vd.View() == LoadMaterial(old(vd.View()), m.value.0, m.value.1, m.value.2)
  {
    var state := ReadByte(r);
    var volumeState := state.value;
    var baseMat := ReadByte(state.next);
    next := baseMat.next;
    if volumeState == 2 {
      next := LoadMaterials(vd, num, next);
    } else {
      vd.DeinitializeMaterial(baseMat.value);
    }
  }

  /**
   * sandboxLoadVoxelData, with the file's contents as a parameter (None when
   * the file cannot be read). A missing or empty file fails without touching
   * the grid; otherwise every field of the format is read in turn and the
   * load reports success, whatever the bytes say.
   */
  method Load(vd: VoxelData, file: Option<seq<byte>>) returns (ok: bool)
    requires vd.Valid()
    requires file.Some? ==> Fits(Parse(file.value), vd.num)
    modifies vd, vd.densityData, vd.materialData
    ensures vd.Valid()
    ensures ok == (file.Some? && |file.value| > 0)
    ensures !ok ==> vd.View() == old(vd.View()) && vd.cellLists == old(vd.cellLists)
    ensures ok ==> (vd.View(), vd.cellLists) == Loaded(old(vd.View()), old(vd.cellLists), Parse(file.value))
  {
    if file.None? {
      return false;
    }
    var bytes := file.value;
    if |bytes| <= 0 {
      return false;
    }
    var header := ReadInt32(Reader(bytes, false));
    var num := header.value;
    var size := ReadWord(header.next);
    var r := LoadDensitySection(vd, num, size.next);
    r := LoadMaterialSection(vd, num, r);
    var endMarker := ReadInt32(r);
    return true;
  }
}
