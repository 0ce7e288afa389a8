/**
 * The pure bit arithmetic inside the stream cursor of src/stream.rs: the
 * mask `pull_bits` builds (lines 68-70) and the 16-bit splice of
 * `pull_bits_u16` (line 89), over Rust's `u8` and `u16` as `bv8` and `bv16`.
 * Bit 0 is the least significant bit, as for Rust's shifts.
 */
module Bits {
  /** Bit `i` of byte `b` is set. */
  predicate BitOf(b: bv8, i: bv8)
    requires i < 8
  {
    (b >> i) & 1 == 1
  }

  /** Rust's `x as u8` for a `u16` `x`: the value modulo 256. */
  function TruncateToU8(x: bv16): (r: bv8)
    ensures r == (x % 256) as bv8
  {
    (x & 0xFF) as bv8
  }

  /** The `n` bits of `b` from bit `lo` up, shifted down to bit 0. */
  function Slice(b: bv8, lo: bv8, n: bv8): bv8
    requires lo < 8 && n <= 8
  {
    (b >> lo) & ((1 << n) - 1)
  }

  /**
   * The mask of src/stream.rs:68-69 for a read of `n` bits at bit `bitPosition`:
   * `!((marker - 1) | !(((marker as u16) << n) - 1) as u8)` with
   * `marker = 1 << bitPosition`. Exactly the bits `bitPosition .. bitPosition + n - 1`
   * are set.
   */
  function Mask(bitPosition: bv8, n: bv8): bv8
    requires bitPosition < 8 && n < 8 && bitPosition + n <= 8
  {
    var marker: bv8 := 1 << bitPosition;
    !((marker - 1) | TruncateToU8(!(((marker as bv16) << n) - 1)))
  }

  /** The mask selects exactly the bits `bitPosition .. bitPosition + n - 1`. */
  lemma MaskSelectsField(bitPosition: bv8, n: bv8)
    requires bitPosition < 8 && n < 8 && bitPosition + n <= 8
    ensures forall i: bv8 :: i < 8 ==> (BitOf(Mask(bitPosition, n), i) <==> bitPosition <= i < bitPosition + n)
  {
  }

  /**
   * The value `pull_bits` returns for `n < 8` (src/stream.rs:70): the masked
   * byte shifted down, which is the byte shifted right by `bitPosition` and cut
   * to its `n` low bits.
   */
  function Extract(b: bv8, bitPosition: bv8, n: bv8): bv8
    requires bitPosition < 8 && n < 8 && bitPosition + n <= 8
  {
    (b & Mask(bitPosition, n)) >> bitPosition
  }

  lemma ExtractIsShiftedByte(b: bv8, bitPosition: bv8, n: bv8)
    requires bitPosition < 8 && n < 8 && bitPosition + n <= 8
    ensures Extract(b, bitPosition, n) == Slice(b, bitPosition, n)
  {
  }

  /** Shifting by nothing and keeping all eight bits leaves a byte as it is. */
  lemma WholeByte(b: bv8)
    ensures Slice(b, 0, 8) == b
  {
  }

  /** An extracted field is below `2^n`. */
  lemma ExtractBound(b: bv8, bitPosition: bv8, n: bv8)
    requires bitPosition < 8 && n < 8 && bitPosition + n <= 8
    ensures Extract(b, bitPosition, n) >> n == 0
  {
  }

  /** Peeling the lowest bit off an extracted field. */
  lemma ExtractStep(b: bv8, bitPosition: bv8, n: bv8)
    requires bitPosition < 7 && 1 < n < 8 && bitPosition + n <= 8
    ensures Extract(b, bitPosition, n) == (Extract(b, bitPosition + 1, n - 1) << 1) | ((b >> bitPosition) & 1)
  {
  }

  /** A one-bit field is the bit itself. */
  lemma ExtractOne(b: bv8, bitPosition: bv8)
    requires bitPosition < 8
    ensures Extract(b, bitPosition, 1) == (b >> bitPosition) & 1
  {
  }

  /** A byte is its seven high bits above its lowest bit. */
  lemma Reassemble(b: bv8, high: bv8, low: bool)
    requires high == Extract(b, 1, 7) && low == BitOf(b, 0)
    ensures (high << 1) | (if low then 1 else 0) == b
  {
  }

  /**
   * The splice of src/stream.rs:89: `(high as u16) << lowWidth | low as u16`,
   * the bits pulled first going high.
   */
  function Concat(high: bv8, low: bv8, lowWidth: bv8): bv16
    requires lowWidth <= 8
  {
    ((high as bv16) << lowWidth) | (low as bv16)
  }

  /**
   * Splicing loses nothing: the top part of the result is `high` and its
   * `lowWidth` low bits are `low`, so both can be recovered from it.
   */
  lemma ConcatParts(high: bv8, low: bv8, lowWidth: bv8)
    requires lowWidth <= 8 && low >> lowWidth == 0
    ensures Concat(high, low, lowWidth) >> lowWidth == high as bv16
    ensures Concat(high, low, lowWidth) & ((1 << lowWidth) - 1) == low as bv16
  {
  }

  /** A `highWidth`-bit `high` spliced above a `lowWidth`-bit `low` fits in `highWidth + lowWidth` bits. */
  lemma ConcatBound(high: bv8, highWidth: bv8, low: bv8, lowWidth: bv8)
    requires highWidth <= 8 && lowWidth <= 8
    requires high >> highWidth == 0 && low >> lowWidth == 0
    ensures Concat(high, low, lowWidth) >> (highWidth + lowWidth) == 0
  {
  }

  /** Subtracting a smaller `u8` from one of at most 16 does not wrap around. */
  lemma SubSmall(a: bv8, b: bv8)
    requires b <= a <= 16
    ensures (a - b) as int == a as int - b as int
  {
  }

  /** Adding two small `u8` values does not wrap around. */
  lemma AddSmall(a: bv8, b: bv8)
    requires a <= 8 && b <= 8
    ensures (a + b) as int == a as int + b as int
  {
  }
}
