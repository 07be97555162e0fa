/**
 * Byte quantisation of the normalised density, and the isolevel.
 *
 * The grid stores a density d in [0, 1] as the byte 255 * d, truncated
 * (`unsigned char d = 255 * density` after clamping), and reads it back as
 * byte / 255. The extractor classifies a sample as inside when its density
 * is below 0.5; the substance cache compares raw bytes against 127.
 */
module Quantize {

  /** An unsigned char. */
  type byte = b: int | 0 <= b < 256

  /** The extractor's isolevel. */
  const IsoLevel: real := 0.5

  /** The substance cache's isolevel on raw bytes. */
  const IsoByte: byte := 127

  /** Clamping of a density to [0, 1] before it is stored. */
  function Clamp(d: real): (r: real)
    ensures 0.0 <= r <= 1.0
    ensures 0.0 <= d <= 1.0 ==> r == d
    ensures d < 0.0 ==> r == 0.0
    ensures d > 1.0 ==> r == 1.0
  {
    if d < 0.0 then 0.0 else if d > 1.0 then 1.0 else d
  }

  /** The byte stored for a density: 255 * clamp(d), truncated toward zero. */
  function ToStored(d: real): byte
  {
    (255.0 * Clamp(d)).Floor
  }

  /** The density read back from a stored byte. */
  function FromStored(b: byte): real
  {
    b as real / 255.0
  }

  /**
   * Storing and reading back loses less than one quantisation step, and never
   * rounds up: the stored value is at most the clamped density.
   */
  lemma QuantizeError(d: real)
    ensures 0.0 <= Clamp(d) - FromStored(ToStored(d)) < 1.0 / 255.0
  {
    var c := Clamp(d);
    var f := (255.0 * c).Floor;
    assert f as real <= 255.0 * c < f as real + 1.0;
    assert FromStored(f) * 255.0 == f as real;
  }

  /**
   * The loss can exceed half a step (1/510): truncation, not rounding, is what
   * the store does. A density of 1/300 is stored as 0.
   */
  lemma TruncationExceedsHalfStep()
    ensures ToStored(1.0 / 300.0) == 0
    ensures Clamp(1.0 / 300.0) - FromStored(ToStored(1.0 / 300.0)) > 1.0 / 510.0
  {
    assert 255.0 * (1.0 / 300.0) == 0.85;
  }

  /** Every byte survives a read followed by a write. */
  lemma QuantizeDequantize(b: byte)
    ensures ToStored(FromStored(b)) == b
  {
    assert 255.0 * FromStored(b) == b as real;
  }

  /** The extractor's density test and the cache's byte test agree on every stored byte. */
  lemma BelowIsoLevel(b: byte)
    ensures FromStored(b) < IsoLevel <==> b <= IsoByte
  {
  }

  /** The two uniform states stand for the bytes 0 and 255. */
  lemma QuantizeUniform()
    ensures ToStored(0.0) == 0 && ToStored(1.0) == 255
    ensures FromStored(0) == 0.0 && FromStored(255) == 1.0
  {
  }
}
