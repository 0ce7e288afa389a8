/**
 * The test vectors of tests/stream.rs as verified call sequences on fresh
 * cursors, and two verified call sequences that show properties across several calls.
 */
module StreamScenarios {
  import opened Bits
  import opened Streams

  /** Six byte reads over `[1, 1, 2, 3, 5, 8]` return the bytes in order. */
  method PullByteVector() returns (rs: seq<Result<bv8>>)
    ensures rs == [Ok(1), Ok(1), Ok(2), Ok(3), Ok(5), Ok(8)]
  {
    var s := new Stream.From([1, 1, 2, 3, 5, 8]);
    var r0 := s.PullByte();
    var r1 := s.PullByte();
    var r2 := s.PullByte();
    var r3 := s.PullByte();
    var r4 := s.PullByte();
    var r5 := s.PullByte();
    rs := [r0, r1, r2, r3, r4, r5];
  }

  /** Sixteen bit reads over `[0b10010110, 0b10100101]` return each byte's bits from bit 0 up. */
  method PullBitVector() returns (rs: seq<Result<bool>>)
    ensures rs == [Ok(false), Ok(true), Ok(true), Ok(false), Ok(true), Ok(false), Ok(false), Ok(true),
                   Ok(true), Ok(false), Ok(true), Ok(false), Ok(false), Ok(true), Ok(false), Ok(true)]
  {
    var s := new Stream.From([0x96, 0xA5]);
    var low := EightPullsYieldByte(s);
    var high := EightPullsYieldByte(s);
    rs := low + high;
  }

  /** Reads of 2, 3, 3, 4, 1 and 3 bits over `[0b10101010, 0b10010011]`. */
  method PullBitsVector() returns (rs: seq<Result<bv8>>)
    ensures rs == [Ok(0x2), Ok(0x2), Ok(0x5), Ok(0x3), Ok(0x1), Ok(0x4)]  // 0b10, 0b010, 0b101, 0b0011, 0b1, 0b100
  {
    var s := new Stream.From([0xAA, 0x93]);
    var r0, r1, r2 := FirstByteOfBitsVector(s);
    var r3, r4, r5 := RestOfBitsVector(s);
    rs := [r0, r1, r2, r3, r4, r5];
  }

  /** The reads of 2, 3 and 3 bits of the first byte that begin `PullBitsVector`. */
  method FirstByteOfBitsVector(s: Stream) returns (r0: Result<bv8>, r1: Result<bv8>, r2: Result<bv8>)
    requires s.Valid() && s.data == [0xAA, 0x93] && s.position == 0 && s.bitPosition == 0
    modifies s
    ensures s.Valid() && s.data == [0xAA, 0x93] && s.position == 1 && s.bitPosition == 0
    ensures r0 == Ok(0x2) && r1 == Ok(0x2) && r2 == Ok(0x5)
  {
    assert s.data[0] == 0xAA;
    FieldInByte(s.data, 0, 0, 2);
    r0 := s.PullBits(2);
    assert s.position == 0 && s.bitPosition == 2;
    FieldInByte(s.data, 0, 2, 3);
    r1 := s.PullBits(3);
    assert s.position == 0 && s.bitPosition == 5;
    FieldInByte(s.data, 0, 5, 3);
    r2 := s.PullBits(3);
  }

  /** The reads of 4, 1 and 3 bits of the second byte that end `PullBitsVector`. */
  method RestOfBitsVector(s: Stream) returns (r3: Result<bv8>, r4: Result<bv8>, r5: Result<bv8>)
    requires s.Valid() && s.data == [0xAA, 0x93] && s.position == 1 && s.bitPosition == 0
    modifies s
    ensures r3 == Ok(0x3) && r4 == Ok(0x1) && r5 == Ok(0x4)
  {
    assert s.data[1] == 0x93;
    FieldInByte(s.data, 1, 0, 4);
    r3 := s.PullBits(4);
    assert s.position == 1 && s.bitPosition == 4;
    FieldInByte(s.data, 1, 4, 1);
    r4 := s.PullBits(1);
    assert s.position == 1 && s.bitPosition == 5;
    FieldInByte(s.data, 1, 5, 3);
    r5 := s.PullBits(3);
  }

  /** Reads of 9 and 12 bits as `u16`, then 3 bits, over `[0b10010011, 0b10101010, 0b11110000]`. */
  method PullBitsU16Vector() returns (a: Result<bv16>, b: Result<bv16>, c: Result<bv8>)
    ensures a == Ok(0x126)  // 0b1001_0011_0
    ensures b == Ok(0xAB0)  // 0b1010101_10000
    ensures c == Ok(0x7)    // 0b111
  {
    var s := new Stream.From([0x93, 0xAA, 0xF0]);
    FieldInByte(s.data, 0, 0, 8);
    FieldInByte(s.data, 1, 0, 1);
    a := s.PullBitsU16(9);
    assert a == Ok(Concat(0x93, 0, 1));
    b, c := RestOfU16Vector(s);
  }

  /** The 12-bit `u16` read and the 3-bit read that follow the first read of `PullBitsU16Vector`. */
  method RestOfU16Vector(s: Stream) returns (b: Result<bv16>, c: Result<bv8>)
    requires s.Valid() && s.data == [0x93, 0xAA, 0xF0] && s.position == 1 && s.bitPosition == 1
    modifies s
    ensures b == Ok(0xAB0) && c == Ok(0x7)
  {
    FieldInByte(s.data, 1, 1, 7);
    FieldInByte(s.data, 2, 0, 5);
    b := s.PullBitsU16(12);
    assert b == Ok(Concat(0x55, 0x10, 5));
    assert s.position == 2 && s.bitPosition == 5;
    FieldInByte(s.data, 2, 5, 3);
    c := s.PullBits(3);
  }

  /**
   * A `u16` read of 16 bits three bits into a byte asks the next byte for 11
   * bits and fails, but the first five bits stay consumed.
   */
  method PullBitsU16NotAtomic() returns (r: Result<bv16>, position: nat, bitPosition: bv8)
    ensures r == Err(InsufficientBits)
    ensures position == 1 && bitPosition == 0
  {
    var s := new Stream.From([0x12, 0x34]);
    var first := s.PullBits(3);
    r := s.PullBitsU16(16);
    position, bitPosition := s.position, s.bitPosition;
  }

  /** Eight bit reads from a byte boundary yield that byte's bits from bit 0 to bit 7. */
  method EightPullsYieldByte(s: Stream) returns (bits: seq<Result<bool>>)
    requires s.Valid() && s.bitPosition == 0 && s.position < |s.data|
    modifies s
    ensures s.Valid() && s.position == old(s.position) + 1 && s.bitPosition == 0
    ensures var b := s.data[old(s.position)];
      bits == [Ok(BitOf(b, 0)), Ok(BitOf(b, 1)), Ok(BitOf(b, 2)), Ok(BitOf(b, 3)),
               Ok(BitOf(b, 4)), Ok(BitOf(b, 5)), Ok(BitOf(b, 6)), Ok(BitOf(b, 7))]
  {
    var r := s.PullBit(); bits := [r];
    r := s.PullBit(); bits := bits + [r];
    r := s.PullBit(); bits := bits + [r];
    r := s.PullBit(); bits := bits + [r];
    r := s.PullBit(); bits := bits + [r];
    r := s.PullBit(); bits := bits + [r];
    r := s.PullBit(); bits := bits + [r];
    r := s.PullBit(); bits := bits + [r];
  }
}
