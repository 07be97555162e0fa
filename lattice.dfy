/**
 * Lattice addressing of a cubic voxel grid of side N.
 *
 * Every buffer of the grid is a flat array of N*N*N bytes addressed by the
 * linear index x*N*N + y*N + z (so z is the innermost coordinate), and the
 * cache-driven mesh drivers turn a stored index back into (x, y, z) with
 * x = i / (N*N), y = (i / N) % N, z = i % N.
 */
module Lattice {

  /**
   * a * b by repeated addition. Products of coordinates go through this
   * function so that the solver sees them as opaque terms unless a proof
   * asks for MulProduct.
   */
  function Mul(a: nat, b: nat): nat
  {
    if a == 0 then 0 else b + Mul(a - 1, b)
  }

  lemma {:induction false} MulProduct(a: nat, b: nat)
    ensures Mul(a, b) == a * b
  {
    if a > 0 {
      MulProduct(a - 1, b);
    }
  }

  /** Number of samples in a grid of side n. */
  function Cube(n: nat): nat { Mul(Mul(n, n), n) }

  /** 1 << k. */
  function Pow2(k: nat): (r: nat)
    ensures r >= 1
  {
    if k == 0 then 1 else 2 * Pow2(k - 1)
  }

  predicate InRange(n: nat, x: nat, y: nat, z: nat) { x < n && y < n && z < n }

  /** x * N * N + y * N + z, as written at every buffer access of the grid. */
  function LinearIndex(n: nat, x: nat, y: nat, z: nat): nat { Mul(Mul(x, n), n) + Mul(y, n) + z }

  /** The products behind Cube and LinearIndex, spelled out. */
  lemma Unfold(n: nat, x: nat, y: nat, z: nat)
    ensures Cube(n) == n * n * n
    ensures LinearIndex(n, x, y, z) == x * n * n + y * n + z
  {
    MulProduct(n, n);
    MulProduct(n * n, n);
    MulProduct(x, n);
    MulProduct(x * n, n);
    MulProduct(y, n);
  }

  datatype Coord = Coord(x: nat, y: nat, z: nat)

  /** The decoding used by the cache-driven drivers. */
  function Decode(n: nat, index: nat): Coord
    requires n > 0
  {
    Coord(index / Mul(n, n), (index / n) % n, index % n)
  }

  // ---------------------------------------------------------------------------
  // Arithmetic helpers (the solver does not reason about products unaided)

  lemma MulAtLeast(k: int, d: int)
    requires k >= 1 && d > 0
    ensures k * d >= d
  {
  }

  lemma MulMonotone(a: nat, b: nat, c: nat)
    requires a <= b
    ensures a * c <= b * c
  {
  }

  lemma DivModUnique(a: int, d: int, q: int, r: int)
    requires d > 0 && 0 <= r < d && a == q * d + r
    ensures a / d == q && a % d == r
  {
    var q', r' := a / d, a % d;
    assert (q - q') * d == r' - r;
    if q > q' {
      MulAtLeast(q - q', d);
    } else if q' > q {
      MulAtLeast(q' - q, d);
    }
  }

  // ---------------------------------------------------------------------------
  // Properties of the linear index

  lemma ProductBound(n: nat, x: nat, y: nat, z: nat)
    requires x < n && y < n && z < n
    ensures x * n * n + y * n + z < n * n * n
  {
    MulMonotone(y, n - 1, n);
    assert y * n + z < n * n by {
      assert (n - 1) * n + n == n * n;
    }
    MulMonotone(x + 1, n, n * n);
    assert (x + 1) * (n * n) == x * n * n + n * n;
  }

  /** A coordinate inside the grid addresses a slot of the N*N*N buffer. */
  lemma LinearIndexBound(n: nat, x: nat, y: nat, z: nat)
    requires InRange(n, x, y, z)
    ensures LinearIndex(n, x, y, z) < Cube(n)
  {
    Unfold(n, x, y, z);
    ProductBound(n, x, y, z);
  }

  /** The buffer slot of an in-range coordinate. */
  function Slot(n: nat, x: nat, y: nat, z: nat): (i: nat)
    requires InRange(n, x, y, z)
    ensures i < Cube(n) && i == LinearIndex(n, x, y, z)
  {
    LinearIndexBound(n, x, y, z);
    LinearIndex(n, x, y, z)
  }

  /** Decoding an encoded in-range coordinate gives the coordinate back. */
  lemma DecodeLinearIndex(n: nat, x: nat, y: nat, z: nat)
    requires n > 0 && y < n && z < n
    ensures Decode(n, LinearIndex(n, x, y, z)) == Coord(x, y, z)
  {
    var i, m := LinearIndex(n, x, y, z), n * n;
    Unfold(n, x, y, z);
    MulProduct(n, n);
    Assoc(x, n, n);
    assert y * n + z < m by {
      MulMonotone(y, n - 1, n);
      assert (n - 1) * n + n == n * n;
    }
    DivModUnique(i, m, x, y * n + z);
    Recompose(n, m, x, y, z, i);
  }

  /** Distinct in-range coordinates address distinct slots. */
  lemma SlotInjective(n: nat, x: nat, y: nat, z: nat, a: nat, b: nat, c: nat)
    requires InRange(n, x, y, z) && InRange(n, a, b, c)
    ensures Slot(n, x, y, z) == Slot(n, a, b, c) <==> x == a && y == b && z == c
  {
    DecodeLinearIndex(n, x, y, z);
    DecodeLinearIndex(n, a, b, c);
  }

  /** Every other in-range coordinate addresses a slot other than (x, y, z)'s. */
  lemma SlotsDistinct(n: nat, x: nat, y: nat, z: nat)
    ensures forall a: nat, b: nat, c: nat :: InRange(n, x, y, z) && InRange(n, a, b, c) && !(a == x && b == y && c == z) ==>
      Slot(n, a, b, c) != Slot(n, x, y, z)
  {
    forall a: nat, b: nat, c: nat | InRange(n, x, y, z) && InRange(n, a, b, c) && !(a == x && b == y && c == z)
      ensures Slot(n, a, b, c) != Slot(n, x, y, z)
    {
      SlotInjective(n, x, y, z, a, b, c);
    }
  }

  lemma Assoc(a: int, b: int, c: int)
    ensures a * b * c == a * (b * c)
  {
  }

  lemma DivModParts(a: nat, d: nat)
    requires d > 0
    ensures a == (a / d) * d + a % d && 0 <= a % d < d && 0 <= a / d
  {
  }

  /** A quotient below its bound: q * d <= a < b * d gives q < b. */
  lemma QuotientBelow(q: nat, d: nat, a: nat, b: nat)
    requires q * d <= a < b * d
    ensures q < b
  {
    if q >= b {
      MulMonotone(b, q, d);
    }
  }

  /** Splitting x * N * N + (y * N + z) again by N, with m = N * N. */
  lemma Recompose(n: nat, m: nat, x: nat, y: nat, z: nat, i: nat)
    requires n > 0 && m == n * n && y < n && z < n && i == x * m + (y * n + z)
    ensures (i / n) % n == y && i % n == z
  {
    assert i == (x * n + y) * n + z;
    DivModUnique(i, n, x * n + y, z);
    DivModUnique(x * n + y, n, x, y);
  }

  lemma ProductDecode(n: nat, m: nat, i: nat)
    requires n > 0 && m == n * n && i < m * n
    ensures var x, y, z := i / m, (i / n) % n, i % n;
      x < n && y < n && z < n && x * m + y * n + z == i
  {
    assert m > 0 by { MulAtLeast(n, n); }
    var x, r := i / m, i % m;
    assert i == x * m + r && r < m && x >= 0 by { DivModParts(i, m); }
    var y, z := r / n, r % n;
    assert r == y * n + z && z < n && y >= 0 by { DivModParts(r, n); }
    assert y < n by { QuotientBelow(y, n, r, n); }
    assert x < n by { QuotientBelow(x, m, i, n); }
    Recompose(n, m, x, y, z, i);
  }

  /** Every slot of the buffer is the encoding of exactly the coordinate it decodes to. */
  lemma LinearIndexDecode(n: nat, i: nat)
    requires n > 0 && i < Cube(n)
    ensures var c := Decode(n, i); InRange(n, c.x, c.y, c.z) && LinearIndex(n, c.x, c.y, c.z) == i
  {
    var c := Decode(n, i);
    var m := n * n;
    MulProduct(n, n);
    Unfold(n, c.x, c.y, c.z);
    assert i < m * n;
    ProductDecode(n, m, i);
    Assoc(c.x, n, n);
  }

  /** The coordinate a buffer slot stands for. */
  function DecodeIn(n: nat, i: nat): (c: Coord)
    requires n > 0 && i < Cube(n)
    ensures c == Decode(n, i)
    ensures InRange(n, c.x, c.y, c.z) && LinearIndex(n, c.x, c.y, c.z) == i
  {
    LinearIndexDecode(n, i);
    Decode(n, i)
  }

  /** The index just past a row z = 0..N-1 is the start of the next row. */
  lemma RowEnd(n: nat, x: nat, y: nat)
    ensures LinearIndex(n, x, y, n) == LinearIndex(n, x, y + 1, 0)
  {
    Unfold(n, x, y, n);
    Unfold(n, x, y + 1, 0);
    assert (y + 1) * n == y * n + n;
  }

  /** The index just past a slab y = 0..N-1 is the start of the next slab. */
  lemma SlabEnd(n: nat, x: nat)
    ensures LinearIndex(n, x, n, 0) == LinearIndex(n, x + 1, 0, 0)
  {
    Unfold(n, x, n, 0);
    Unfold(n, x + 1, 0, 0);
    assert (x + 1) * n * n == x * n * n + n * n;
  }

  /** The index just past the last slab is the buffer size. */
  lemma GridEnd(n: nat)
    ensures LinearIndex(n, n, 0, 0) == Cube(n)
  {
    Unfold(n, n, 0, 0);
  }

  /** The linear index grows with each coordinate. */
  lemma LinearIndexMonotone(n: nat, a: nat, b: nat, c: nat, x: nat, y: nat, z: nat)
    requires a <= x && b <= y && c <= z
    ensures LinearIndex(n, a, b, c) <= LinearIndex(n, x, y, z)
  {
    Unfold(n, a, b, c);
    Unfold(n, x, y, z);
    MulMonotone(a, x, n);
    MulMonotone(a * n, x * n, n);
    MulMonotone(b, y, n);
  }
}
