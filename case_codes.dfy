/**
 * The discrete skeleton of the Transvoxel extractor: the 8-bit regular case
 * code, the 9-bit transition case code, the decoding of edge codes and of
 * transition class bytes, the lookup tables (whose contents are not part of
 * this model and are taken as parameters with well-formedness conditions),
 * and the integer midpoint of two sample addresses.
 */
module CaseCodes {

  // ---------------------------------------------------------------------------
  // Signed shifts, as the C++ code performs them on an int8 promoted to int

  /** Arithmetic shift right of a 32-bit two's-complement value. */
  function Asr(v: bv32, k: bv32): (r: bv32)
    requires k < 32
    ensures v & 0x8000_0000 == 0 ==> r == v >> k
  {
    if v & 0x8000_0000 != 0 then !((!v) >> k) else v >> k
  }

  /**
   * The corner flag of a sample promoted to int: -127 (sign-extended) when
   * the sample is below the isolevel, 0 otherwise.
   */
  function Flag(below: bool): bv32
  {
    if below then 0xFFFF_FF81 else 0
  }

  // ---------------------------------------------------------------------------
  // Regular cells

  /**
   * The regular case code, as the extractor assembles it: corner i
   * contributes (flag >> (7 - i)) & (1 << i), corner 7 contributes flag & 0x80.
   */
  function RegularCaseCode(below: seq<bool>): bv32
    requires |below| == 8
  {
    (Asr(Flag(below[0]), 7) & 0x01)
    | (Asr(Flag(below[1]), 6) & 0x02)
    | (Asr(Flag(below[2]), 5) & 0x04)
    | (Asr(Flag(below[3]), 4) & 0x08)
    | (Asr(Flag(below[4]), 3) & 0x10)
    | (Asr(Flag(below[5]), 2) & 0x20)
    | (Asr(Flag(below[6]), 1) & 0x40)
    | (Flag(below[7]) & 0x80)
  }

  /** The corner flags a regular case code stands for: bit i is corner i. */
  function RegularBits(code: bv32): (b: seq<bool>)
    ensures |b| == 8
  {
    [code & 0x01 != 0, code & 0x02 != 0, code & 0x04 != 0, code & 0x08 != 0,
     code & 0x10 != 0, code & 0x20 != 0, code & 0x40 != 0, code & 0x80 != 0]
  }

  /** Bit i of the regular case code is set exactly when corner i is below the isolevel. */
  lemma RegularCodeBits(below: seq<bool>)
    requires |below| == 8
    ensures RegularCaseCode(below) < 256
    ensures RegularBits(RegularCaseCode(below)) == below
  {
    EightItems(below);
    EightBits(below[0], below[1], below[2], below[3], below[4], below[5], below[6], below[7]);
  }

  /** Eight corner flags, assembled into a code and decoded again. */
  lemma EightBits(b0: bool, b1: bool, b2: bool, b3: bool, b4: bool, b5: bool, b6: bool, b7: bool)
    ensures var b := [b0, b1, b2, b3, b4, b5, b6, b7];
      RegularCaseCode(b) < 256 && RegularBits(RegularCaseCode(b)) == b
  {
  }

  lemma EightItems<T>(s: seq<T>)
    requires |s| == 8
    ensures s == [s[0], s[1], s[2], s[3], s[4], s[5], s[6], s[7]]
  {
  }

  /** Every byte is the regular case code of exactly one corner configuration. */
  lemma RegularBitsCode(code: bv32)
    requires code < 256
    ensures RegularCaseCode(RegularBits(code)) == code
  {
  }

  /**
   * The case code is 0 exactly when no corner is below the isolevel (the cell
   * emits nothing) and 255 exactly when every corner is.
   */
  lemma {:induction false} RegularCodeExtremes(below: seq<bool>)
    requires |below| == 8
    ensures RegularCaseCode(below) == 0 <==> forall i :: 0 <= i < 8 ==> !below[i]
    ensures RegularCaseCode(below) == 255 <==> forall i :: 0 <= i < 8 ==> below[i]
  {
    RegularCodeBits(below);
    var code := RegularCaseCode(below);
    if code == 0 {
      assert RegularBits(0) == [false, false, false, false, false, false, false, false];
    }
    if code == 255 {
      assert RegularBits(255) == [true, true, true, true, true, true, true, true];
    }
    if forall i :: 0 <= i < 8 ==> !below[i] {
      assert below == [false, false, false, false, false, false, false, false];
    }
    if forall i :: 0 <= i < 8 ==> below[i] {
      assert below == [true, true, true, true, true, true, true, true];
    }
  }

  // ---------------------------------------------------------------------------
  // Transition cells

  /** The weight of each of the nine full-resolution samples in the transition case code. */
  const TransitionCoeffs: seq<int> := [0x01, 0x02, 0x04, 0x80, 0x100, 0x08, 0x40, 0x20, 0x10]

  /** What sample ci adds to the code: ((flag >> 7) & 1) * coefficient. */
  function TransitionTerm(below: seq<bool>, ci: nat): int
    requires |below| == 9 && ci < 9
  {
    (Asr(Flag(below[ci]), 7) & 1) as int * TransitionCoeffs[ci]
  }

  /** A sample adds its coefficient when it is below the isolevel and nothing otherwise. */
  lemma TransitionTermValue(below: seq<bool>, ci: nat)
    requires |below| == 9 && ci < 9
    ensures TransitionTerm(below, ci) == if below[ci] then TransitionCoeffs[ci] else 0
  {
    assert Asr(Flag(below[ci]), 7) & 1 == if below[ci] then 1 else 0;
  }

  /** The code accumulated over the first k samples: the coefficients of those below the isolevel. */
  function PartialTransitionCode(below: seq<bool>, k: nat): int
    requires |below| == 9 && k <= 9
  {
    if k == 0 then 0 else PartialTransitionCode(below, k - 1) + if below[k - 1] then TransitionCoeffs[k - 1] else 0
  }

  /** The transition case code: the sum of the coefficients of the samples below the isolevel. */
  function TransitionCaseCode(below: seq<bool>): int
    requires |below| == 9
  {
    (if below[0] then 0x01 else 0) + (if below[1] then 0x02 else 0) + (if below[2] then 0x04 else 0)
    + (if below[3] then 0x80 else 0) + (if below[4] then 0x100 else 0) + (if below[5] then 0x08 else 0)
    + (if below[6] then 0x40 else 0) + (if below[7] then 0x20 else 0) + (if below[8] then 0x10 else 0)
  }

  /** The same code as a bit pattern: the coefficients are distinct powers of two. */
  function TransitionCodeBits(below: seq<bool>): bv16
    requires |below| == 9
  {
    NineBitCode(below[0], below[1], below[2], below[3], below[4], below[5], below[6], below[7], below[8])
  }

  /** The bitwise union of the coefficients of the samples whose flag is set. */
  function NineBitCode(b0: bool, b1: bool, b2: bool, b3: bool, b4: bool, b5: bool, b6: bool, b7: bool, b8: bool): bv16
  {
    (if b0 then 0x01 else 0) | (if b1 then 0x02 else 0) | (if b2 then 0x04 else 0)
    | (if b3 then 0x80 else 0) | (if b4 then 0x100 else 0) | (if b5 then 0x08 else 0)
    | (if b6 then 0x40 else 0) | (if b7 then 0x20 else 0) | (if b8 then 0x10 else 0)
  }

  /** The sample flags a transition case code stands for. */
  function TransitionBits(code: bv16): (b: seq<bool>)
    ensures |b| == 9
  {
    [code & 0x01 != 0, code & 0x02 != 0, code & 0x04 != 0, code & 0x80 != 0, code & 0x100 != 0,
     code & 0x08 != 0, code & 0x40 != 0, code & 0x20 != 0, code & 0x10 != 0]
  }

  /** The sum and the bitwise union of the coefficients agree. */
  lemma TransitionSumIsUnion(below: seq<bool>)
    requires |below| == 9
    ensures TransitionCodeBits(below) as int == TransitionCaseCode(below)
  {
  }

  /** The accumulation over all nine samples is the transition case code. */
  lemma {:induction false} PartialTransitionCodeFull(below: seq<bool>)
    requires |below| == 9
    ensures PartialTransitionCode(below, 9) == TransitionCaseCode(below)
  {
    assert PartialTransitionCode(below, 1) == (if below[0] then 0x01 else 0);
    assert PartialTransitionCode(below, 2) == (if below[0] then 0x01 else 0) + (if below[1] then 0x02 else 0);
    assert PartialTransitionCode(below, 3) == (if below[0] then 0x01 else 0) + (if below[1] then 0x02 else 0) + (if below[2] then 0x04 else 0);
    assert PartialTransitionCode(below, 4) == (if below[0] then 0x01 else 0) + (if below[1] then 0x02 else 0) + (if below[2] then 0x04 else 0) + (if below[3] then 0x80 else 0);
    assert PartialTransitionCode(below, 5) == (if below[0] then 0x01 else 0) + (if below[1] then 0x02 else 0) + (if below[2] then 0x04 else 0) + (if below[3] then 0x80 else 0) + (if below[4] then 0x100 else 0);
    assert PartialTransitionCode(below, 6) == (if below[0] then 0x01 else 0) + (if below[1] then 0x02 else 0) + (if below[2] then 0x04 else 0) + (if below[3] then 0x80 else 0) + (if below[4] then 0x100 else 0) + (if below[5] then 0x08 else 0);
    assert PartialTransitionCode(below, 7) == (if below[0] then 0x01 else 0) + (if below[1] then 0x02 else 0) + (if below[2] then 0x04 else 0) + (if below[3] then 0x80 else 0) + (if below[4] then 0x100 else 0) + (if below[5] then 0x08 else 0) + (if below[6] then 0x40 else 0);
    assert PartialTransitionCode(below, 8) == (if below[0] then 0x01 else 0) + (if below[1] then 0x02 else 0) + (if below[2] then 0x04 else 0) + (if below[3] then 0x80 else 0) + (if below[4] then 0x100 else 0) + (if below[5] then 0x08 else 0) + (if below[6] then 0x40 else 0) + (if below[7] then 0x20 else 0);
  }

  /**
   * The transition case code of extractTransitionCell, accumulated sample by
   * sample.
   */
  method ComputeTransitionCaseCode(below: seq<bool>) returns (code: int)
    requires |below| == 9
    ensures code == TransitionCaseCode(below)
  {
    code := 0;
    var ci := 0;
    while ci < 9
      invariant 0 <= ci <= 9
      invariant code == PartialTransitionCode(below, ci)
    {
      TransitionTermValue(below, ci);
      code := code + (Asr(Flag(below[ci]), 7) & 1) as int * TransitionCoeffs[ci];
      ci := ci + 1;
    }
    PartialTransitionCodeFull(below);
  }

  /** Each sample owns one distinct bit of the 9-bit pattern. */
  lemma TransitionBitsOfCode(below: seq<bool>)
    requires |below| == 9
    ensures TransitionCodeBits(below) < 512
    ensures TransitionBits(TransitionCodeBits(below)) == below
  {
    NineItems(below);
    NineBits(below[0], below[1], below[2], below[3], below[4], below[5], below[6], below[7], below[8]);
  }

  lemma NineItems<T>(s: seq<T>)
    requires |s| == 9
    ensures s == [s[0], s[1], s[2], s[3], s[4], s[5], s[6], s[7], s[8]]
  {
  }

  /** Nine flags placed on distinct bits can be read back one by one. */
  lemma NineBits(b0: bool, b1: bool, b2: bool, b3: bool, b4: bool, b5: bool, b6: bool, b7: bool, b8: bool)
    ensures var b := [b0, b1, b2, b3, b4, b5, b6, b7, b8];
      TransitionCodeBits(b) < 512 && TransitionBits(TransitionCodeBits(b)) == b
  {
  }

  /** The transition case code is in 0..511 and determines every sample's flag. */
  lemma TransitionCodeDecodes(below: seq<bool>)
    requires |below| == 9
    ensures 0 <= TransitionCaseCode(below) < 512
    ensures TransitionBits(TransitionCodeBits(below)) == below
  {
    TransitionSumIsUnion(below);
    TransitionBitsOfCode(below);
  }

  /** Every value in 0..511 is the transition case code of a sample configuration. */
  lemma TransitionBitsCode(code: bv16)
    requires code < 512
    ensures TransitionCaseCode(TransitionBits(code)) == code as int
  {
    TransitionSumIsUnion(TransitionBits(code));
    assert TransitionCodeBits(TransitionBits(code)) == code;
  }

  /** Distinct sample configurations have distinct transition case codes. */
  lemma TransitionCodeInjective(b1: seq<bool>, b2: seq<bool>)
    requires |b1| == 9 && |b2| == 9 && TransitionCaseCode(b1) == TransitionCaseCode(b2)
    ensures b1 == b2
  {
    TransitionSumIsUnion(b1);
    TransitionSumIsUnion(b2);
    TransitionBitsOfCode(b1);
    TransitionBitsOfCode(b2);
    BvAsIntInjective(TransitionCodeBits(b1), TransitionCodeBits(b2));
  }

  lemma BvAsIntInjective(c1: bv16, c2: bv16)
    requires c1 < 512 && c2 < 512 && c1 as int == c2 as int
    ensures c1 == c2
  {
  }

  /** The transition case code is 0 exactly when no sample is below the isolevel. */
  lemma TransitionCodeZero(below: seq<bool>)
    requires |below| == 9
    ensures TransitionCaseCode(below) == 0 <==> forall i :: 0 <= i < 9 ==> !below[i]
  {
  }

  // ---------------------------------------------------------------------------
  // Table entries

  /** An edge code's two corner numbers: bits 4..7 and bits 0..3. */
  function EdgeEndpoints(edgeCode: bv16): (r: (bv16, bv16))
    ensures r.0 < 16 && r.1 < 16
  {
    ((edgeCode >> 4) & 0x0F, edgeCode & 0x0F)
  }

  /** An edge code with reuse byte h and corners v0, v1 decodes to v0 and v1. */
  lemma EdgeEndpointsOfCode(h: bv16, v0: bv16, v1: bv16)
    requires h < 256 && v0 < 16 && v1 < 16
    ensures EdgeEndpoints((h << 8) | (v0 << 4) | v1) == (v0, v1)
  {
  }

  /** The decoded corners and the high byte rebuild the edge code. */
  lemma EdgeCodeOfEndpoints(edgeCode: bv16)
    ensures var (v0, v1) := EdgeEndpoints(edgeCode); (edgeCode & 0xFF00) | (v0 << 4) | v1 == edgeCode
  {
  }

  /** Bit 7 of a transition class byte: the cell's triangles are emitted reversed. */
  function ClassInverse(classIndex: bv8): bool
  {
    classIndex & 0x80 != 0
  }

  /** The low seven bits of a transition class byte: the index into the cell data table. */
  function ClassDataIndex(classIndex: bv8): (r: bv8)
    ensures r < 128
  {
    classIndex & 0x7F
  }

  /** A class byte is exactly its inversion flag and its data index. */
  lemma ClassByteSplit(classIndex: bv8)
    ensures classIndex == (if ClassInverse(classIndex) then 0x80 else 0) | ClassDataIndex(classIndex)
  {
  }

  /** One RegularCellData or TransitionCellData entry. */
  datatype CellData = CellData(vertexCount: nat, triangleCount: nat, vertexIndex: seq<nat>)

  /** Its triangles only name vertices it generates. */
  predicate CellDataWellFormed(cd: CellData)
  {
    && |cd.vertexIndex| >= 3 * cd.triangleCount
    && forall k :: 0 <= k < 3 * cd.triangleCount ==> cd.vertexIndex[k] < cd.vertexCount
  }

  /** The six Transvoxel lookup tables. */
  datatype Tables = Tables(
    regularCellClass: seq<nat>,
    regularCellData: seq<CellData>,
    regularVertexData: seq<seq<bv16>>,
    transitionCellClass: seq<bv8>,
    transitionCellData: seq<CellData>,
    transitionVertexData: seq<seq<bv16>>)

  /**
   * What the extractor relies on: every case code has a class, every class
   * index is in range, every cell's triangles name its own vertices, every
   * vertex has an edge code, and every edge names one of the 8 cell corners
   * (regular) or one of the 13 transition samples.
   */
  predicate WellFormed(t: Tables)
  {
    && |t.regularCellClass| == 256 && |t.regularVertexData| == 256
    && |t.transitionCellClass| == 512 && |t.transitionVertexData| == 512
    && (forall c :: 0 <= c < 256 ==> t.regularCellClass[c] < |t.regularCellData|)
    && (forall c :: 0 <= c < 512 ==> ClassDataIndex(t.transitionCellClass[c]) as int < |t.transitionCellData|)
    && (forall k :: 0 <= k < |t.regularCellData| ==> CellDataWellFormed(t.regularCellData[k]))
    && (forall k :: 0 <= k < |t.transitionCellData| ==> CellDataWellFormed(t.transitionCellData[k]))
    && (forall c :: 0 <= c < 256 ==>
          |t.regularVertexData[c]| >= t.regularCellData[t.regularCellClass[c]].vertexCount
          && forall i :: 0 <= i < |t.regularVertexData[c]| ==>
               EdgeEndpoints(t.regularVertexData[c][i]).0 as int < 8 && EdgeEndpoints(t.regularVertexData[c][i]).1 as int < 8)
    && (forall c :: 0 <= c < 512 ==>
          |t.transitionVertexData[c]| >= t.transitionCellData[ClassDataIndex(t.transitionCellClass[c])].vertexCount
          && forall i :: 0 <= i < |t.transitionVertexData[c]| ==>
               EdgeEndpoints(t.transitionVertexData[c][i]).0 as int < 13 && EdgeEndpoints(t.transitionVertexData[c][i]).1 as int < 13)
  }

  // ---------------------------------------------------------------------------
  // Midpoints of sample addresses

  /** C++ int division by 2, truncating toward zero. */
  function HalfTowardZero(d: int): int
  {
    if d >= 0 then d / 2 else -((-d) / 2)
  }

  /**
   * One coordinate of clcMediumAddr(adr1, adr2): (a2 - a1) / 2 + a1 in int,
   * with C's division, stored into a uint8.
   */
  function MediumCoord(a1: int, a2: int): (r: int)
    requires 0 <= a1 < 256 && 0 <= a2 < 256
    ensures 0 <= r < 256
  {
    (HalfTowardZero(a2 - a1) + a1) % 256
  }

  /**
   * The midpoint lies between the two coordinates, is exact when their
   * difference is even, and otherwise rounds toward the first argument.
   */
  lemma MediumCoordBetween(a1: int, a2: int)
    requires 0 <= a1 < 256 && 0 <= a2 < 256
    ensures var r := MediumCoord(a1, a2);
      && (a1 <= a2 ==> a1 <= r <= a2)
      && (a2 <= a1 ==> a2 <= r <= a1)
      && ((a2 - a1) % 2 == 0 ==> 2 * r == a1 + a2)
      && ((a2 - a1) % 2 != 0 && a1 < a2 ==> 2 * r == a1 + a2 - 1)
      && ((a2 - a1) % 2 != 0 && a2 < a1 ==> 2 * r == a1 + a2 + 1)
  {
  }
}
