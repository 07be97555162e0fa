/**
 * The orders in which the polygonisation drivers visit cells: the cells a
 * substance cache list decodes to, the stride-aligned lattice of the
 * brute-force drivers, and the part of it a LOD's stride keeps.
 */
module VisitOrder {
  import opened Lattice

  /** The cells a cache list stands for, decoded as the cache-driven drivers do. */
  function DecodeCells(n: nat, indices: seq<nat>): (cells: seq<Coord>)
    requires n > 0
    ensures |cells| == |indices|
  {
    seq(|indices|, k requires 0 <= k < |indices| => Decode(n, indices[k]))
  }

  /** One step of the cache loop: the list from k decodes to entry k's cell, then the list from k + 1. */
  lemma DecodeCellsNext(n: nat, indices: seq<nat>, k: nat, k': nat)
    requires n > 0 && k < |indices| && k' == k + 1
    ensures DecodeCells(n, indices[k..]) == [Decode(n, indices[k])] + DecodeCells(n, indices[k'..])
  {
  }

  /** Every cache entry inside the grid decodes to the in-range cell whose linear index it is. */
  lemma DecodeCellsInverse(n: nat, indices: seq<nat>)
    requires n > 0 && forall k :: 0 <= k < |indices| ==> indices[k] < Cube(n)
    ensures forall k :: 0 <= k < |indices| ==>
      var c := DecodeCells(n, indices)[k];
      InRange(n, c.x, c.y, c.z) && LinearIndex(n, c.x, c.y, c.z) == indices[k]
  {
    forall k | 0 <= k < |indices|
      ensures var c := DecodeCells(n, indices)[k]; InRange(n, c.x, c.y, c.z) && LinearIndex(n, c.x, c.y, c.z) == indices[k]
    {
      LinearIndexDecode(n, indices[k]);
    }
  }

  /** The innermost brute-force loop: z = z0, z0 + s, ... while z < n - s. */
  function RowCells(n: nat, s: int, x: nat, y: nat, z: nat): seq<Coord>
    requires s > 0
    decreases n - z
  {
    if z < n - s then [Coord(x, y, z)] + RowCells(n, s, x, y, z + s) else []
  }

  /** The middle loop: the rows y = y0, y0 + s, ... while y < n - s. */
  function SlabCells(n: nat, s: int, x: nat, y: nat): seq<Coord>
    requires s > 0
    decreases n - y
  {
    if y < n - s then RowCells(n, s, x, y, 0) + SlabCells(n, s, x, y + s) else []
  }

  /** The outer loop: the slabs x = x0, x0 + s, ... while x < n - s. */
  function GridCellsFrom(n: nat, s: int, x: nat): seq<Coord>
    requires s > 0
    decreases n - x
  {
    if x < n - s then SlabCells(n, s, x, 0) + GridCellsFrom(n, s, x + s) else []
  }

  /** The cells the brute-force drivers visit, in their order. */
  function GridCells(n: nat, s: int): seq<Coord>
    requires s > 0
  {
    GridCellsFrom(n, s, 0)
  }

  /** A coordinate on the stride-s lattice from a start value, below n - s. */
  predicate OnLine(v: int, start: int, n: nat, s: int)
    requires s > 0
  {
    start <= v < n - s && (v - start) % s == 0
  }

  lemma ModStep(a: int, s: int)
    requires s > 0 && a >= 0
    ensures a % s == 0 <==> a == 0 || (a >= s && (a - s) % s == 0)
  {
    var q, m := a / s, a % s;
    DivModParts(a, s);
    assert (q - 1) * s == q * s - s;
    DivModUnique(a - s, s, q - 1, m);
    if a > 0 && m == 0 {
      assert q != 0;
      MulAtLeast(q, s);
    }
  }

  /** Stepping a lattice line: v is on the line from start exactly when it is start or on the line from start + s. */
  lemma OnLineStep(v: int, start: int, n: nat, s: int)
    requires s > 0 && start < n - s
    ensures OnLine(v, start, n, s) <==> v == start || OnLine(v, start + s, n, s)
  {
    if v >= start {
      ModStep(v - start, s);
      assert v - (start + s) == (v - start) - s;
    }
  }

  lemma {:induction false} RowCellsMembers(n: nat, s: int, x: nat, y: nat, z: nat, c: Coord)
    requires s > 0
    ensures c in RowCells(n, s, x, y, z) <==> c.x == x && c.y == y && OnLine(c.z, z, n, s)
    decreases n - z
  {
    if z < n - s {
      RowCellsMembers(n, s, x, y, z + s, c);
      OnLineStep(c.z, z, n, s);
    }
  }

  lemma {:induction false} SlabCellsMembers(n: nat, s: int, x: nat, y: nat, c: Coord)
    requires s > 0
    ensures c in SlabCells(n, s, x, y) <==> c.x == x && OnLine(c.y, y, n, s) && OnLine(c.z, 0, n, s)
    decreases n - y
  {
    if y < n - s {
      SlabCellsMembers(n, s, x, y + s, c);
      RowCellsMembers(n, s, x, y, 0, c);
      OnLineStep(c.y, y, n, s);
    }
  }

  lemma {:induction false} GridCellsFromMembers(n: nat, s: int, x: nat, c: Coord)
    requires s > 0
    ensures c in GridCellsFrom(n, s, x) <==> OnLine(c.x, x, n, s) && OnLine(c.y, 0, n, s) && OnLine(c.z, 0, n, s)
    decreases n - x
  {
    if x < n - s {
      GridCellsFromMembers(n, s, x + s, c);
      SlabCellsMembers(n, s, x, 0, c);
      OnLineStep(c.x, x, n, s);
    }
  }

  /**
   * The brute-force drivers visit exactly the cells whose coordinates are
   * multiples of the step and below N - step.
   */
  lemma GridCellsMembers(n: nat, s: int, c: Coord)
    requires s > 0
    ensures c in GridCells(n, s) <==>
      c.x < n - s && c.y < n - s && c.z < n - s && c.x % s == 0 && c.y % s == 0 && c.z % s == 0
  {
    GridCellsFromMembers(n, s, 0, c);
  }

  /** A cell every coordinate of which is a multiple of s. */
  predicate OnStride(c: Coord, s: nat)
    requires s > 0
  {
    c.x % s == 0 && c.y % s == 0 && c.z % s == 0
  }

  /** The cells of a visiting sequence that lie on the stride of 2^lod, in order. */
  function OnLodStride(cells: seq<Coord>, lod: nat): (r: seq<Coord>)
  {
    if cells == [] then []
    else
      var c := cells[|cells| - 1];
      OnLodStride(cells[..|cells| - 1], lod) + if OnStride(c, Pow2(lod)) then [c] else []
  }

  /** OnLodStride keeps exactly the cells on the stride, and nothing else. */
  lemma {:induction false} OnLodStrideMembers(cells: seq<Coord>, lod: nat, c: Coord)
    ensures c in OnLodStride(cells, lod) <==> c in cells && OnStride(c, Pow2(lod))
  {
    if cells != [] {
      var p := cells[..|cells| - 1];
      OnLodStrideMembers(p, lod, c);
      assert cells == p + [cells[|cells| - 1]];
    }
  }

  lemma OnLodStrideSnoc(cells: seq<Coord>, lod: nat, c: Coord)
    ensures OnLodStride(cells + [c], lod) == OnLodStride(cells, lod) + if OnStride(c, Pow2(lod)) then [c] else []
  {
    assert (cells + [c])[..|cells|] == cells;
  }

  /** A single cell is kept exactly when it lies on the stride. */
  lemma OnLodStrideOne(c: Coord, lod: nat)
    ensures OnLodStride([c], lod) == if OnStride(c, Pow2(lod)) then [c] else []
  {
    assert [c][..0] == [];
  }

  /** Filtering a concatenation filters each part. */
  lemma {:induction false} OnLodStrideAppend(a: seq<Coord>, b: seq<Coord>, lod: nat)
    ensures OnLodStride(a + b, lod) == OnLodStride(a, lod) + OnLodStride(b, lod)
    decreases |b|
  {
    if b == [] {
      assert a + b == a;
    } else {
      var p, c := b[..|b| - 1], b[|b| - 1];
      assert a + b == (a + p) + [c];
      assert b == p + [c];
      OnLodStrideSnoc(a + p, lod, c);
      OnLodStrideSnoc(p, lod, c);
      OnLodStrideAppend(a, p, lod);
    }
  }

  /** One step of the z loop: the row from z is cell z followed by the row from z + s. */
  lemma RowCellsNext(n: nat, s: int, x: nat, y: nat, z: nat, z': nat)
    requires s > 0 && z < n - s && z' == z + s
    ensures RowCells(n, s, x, y, z) == [Coord(x, y, z)] + RowCells(n, s, x, y, z')
  {
  }

  /** One step of the y loop: the slab from y is row y followed by the slab from y + s. */
  lemma SlabCellsNext(n: nat, s: int, x: nat, y: nat, y': nat)
    requires s > 0 && y < n - s && y' == y + s
    ensures SlabCells(n, s, x, y) == RowCells(n, s, x, y, 0) + SlabCells(n, s, x, y')
  {
  }

  /** One step of the x loop: the grid from x is slab x followed by the grid from x + s. */
  lemma GridCellsFromNext(n: nat, s: int, x: nat, x': nat)
    requires s > 0 && x < n - s && x' == x + s
    ensures GridCellsFrom(n, s, x) == SlabCells(n, s, x, 0) + GridCellsFrom(n, s, x')
  {
  }
}
