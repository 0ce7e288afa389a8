/**
 * The bit cursor of src/stream.rs: a reader over an immutable byte sequence
 * that keeps a byte index `position` and a bit index `bitPosition` inside the
 * current byte. Bits of a byte are read least significant first; the bits of
 * the whole stream are numbered `8 * byte + bit`.
 */
module Streams {
  import opened Bits

  /** One constructor per distinct failure message of src/stream.rs. */
  datatype Error =
    | MisalignedByte     // a byte was requested while bits of the current byte are consumed
    | NoDataRemaining    // the cursor is past the last byte
    | InsufficientBits   // more bits were requested than the current byte still holds
    | WidthExceedsU16    // more than 16 bits were requested for a `u16`

  datatype Result<T> = Ok(value: T) | Err(error: Error)

  /** Bit number `k` of the stream: bit `k % 8` of byte `k / 8`. */
  predicate StreamBit(data: seq<bv8>, k: nat)
    requires k < 8 * |data|
  {
    BitOf(data[k / 8], (k % 8) as bv8)
  }

  /**
   * The reference reading: the `n` stream bits starting at bit `k`, packed
   * into a byte with the first of them lowest.
   */
  function Field(data: seq<bv8>, k: nat, n: bv8): (v: bv8)
    requires n <= 8 && k + n as int <= 8 * |data|
    ensures v >> n == 0
    decreases n as int
  {
    if n == 0 then 0
    else (Field(data, k + 1, n - 1) << 1) | (if StreamBit(data, k) then 1 else 0)
  }

  /** Stream bit `8 * p + i` is bit `i` of byte `p`. */
  lemma StreamBitInByte(data: seq<bv8>, p: nat, i: bv8)
    requires p < |data| && i < 8
    ensures StreamBit(data, 8 * p + i as int) == BitOf(data[p], i)
  {
    var k := 8 * p + i as int;
    assert k / 8 == p && k % 8 == i as int;
  }

  /** The field cut out by the mask of `pull_bits` is the reference reading of those stream bits. */
  lemma {:induction false} ExtractIsField(data: seq<bv8>, p: nat, bitPosition: bv8, n: bv8)
    requires p < |data| && bitPosition < 8 && n < 8 && bitPosition + n <= 8
    ensures Extract(data[p], bitPosition, n) == Field(data, 8 * p + bitPosition as int, n)
    decreases n as int
  {
    if n > 0 {
      StreamBitInByte(data, p, bitPosition);
      if n == 1 {
        ExtractOne(data[p], bitPosition);
        assert Field(data, 8 * p + bitPosition as int + 1, 0) == 0;
      } else {
        ExtractIsField(data, p, bitPosition + 1, n - 1);
        ExtractStep(data[p], bitPosition, n);
      }
    }
  }

  lemma HighSeven(data: seq<bv8>, p: nat)
    requires p < |data|
    ensures Field(data, 8 * p + 1, 7) == Extract(data[p], 1, 7)
  {
    ExtractIsField(data, p, 1, 7);
  }

  lemma LowBit(data: seq<bv8>, p: nat)
    requires p < |data|
    ensures StreamBit(data, 8 * p) == BitOf(data[p], 0)
  {
    StreamBitInByte(data, p, 0);
  }

  lemma FieldOfEight(data: seq<bv8>, k: nat)
    requires k + 8 <= 8 * |data|
    ensures Field(data, k, 8) == (Field(data, k + 1, 7) << 1) | (if StreamBit(data, k) then 1 else 0)
  {
  }

  /** The eight stream bits of byte `p`, lowest first, make up that byte. */
  lemma ByteIsField(data: seq<bv8>, p: nat)
    requires p < |data|
    ensures Field(data, 8 * p, 8) == data[p]
  {
    HighSeven(data, p);
    LowBit(data, p);
    FieldOfEight(data, 8 * p);
    Reassemble(data[p], Field(data, 8 * p + 1, 7), StreamBit(data, 8 * p));
  }

  /**
   * Within one byte the reference reading is the closed form of src/stream.rs:70:
   * the byte shifted right by `bitPosition`, cut to its `n` low bits.
   */
  lemma FieldInByte(data: seq<bv8>, p: nat, bitPosition: bv8, n: bv8)
    requires p < |data| && bitPosition < 8 && n <= 8 && bitPosition + n <= 8
    ensures Field(data, 8 * p + bitPosition as int, n) == Slice(data[p], bitPosition, n)
  {
    if n == 8 {
      ByteIsField(data, p);
      WholeByte(data[p]);
      assert 8 * p + bitPosition as int == 8 * p;
    } else {
      ExtractIsField(data, p, bitPosition, n);
      ExtractIsShiftedByte(data[p], bitPosition, n);
    }
  }

  /**
   * Read from a byte boundary, sixteen bits for a `u16` are the two bytes in
   * big-endian order, as the remark at src/stream.rs:82 says.
   */
  lemma AlignedU16IsBigEndian(data: seq<bv8>, p: nat)
    requires p + 1 < |data|
    ensures Concat(Field(data, 8 * p, 8), Field(data, 8 * (p + 1), 8), 8) == ((data[p] as bv16) << 8) | (data[p + 1] as bv16)
  {
    ByteIsField(data, p);
    ByteIsField(data, p + 1);
    assert Field(data, 8 * p, 8) == data[p] && Field(data, 8 * (p + 1), 8) == data[p + 1];
  }

  /** The cursor after a successful `pull_bits(n)` is `n` bits further on. */
  lemma BitsAdvanceOffset(position: nat, bitPosition: bv8, n: bv8, position': nat, bitPosition': bv8)
    requires bitPosition < 8 && n <= 8 && bitPosition + n <= 8
    requires if bitPosition + n == 8 then position' == position + 1 && bitPosition' == 0
             else position' == position && bitPosition' == bitPosition + n
    ensures 8 * position' + bitPosition' as int == 8 * position + bitPosition as int + n as int
  {
    AddSmall(bitPosition, n);
  }

  /**
   * The cursor after a successful `pull_bits_u16(n)` is `n` bits further on:
   * the rest of the current byte, then `n2` bits of the next.
   */
  lemma U16AdvanceOffset(position: nat, bitPosition: bv8, n: bv8, position': nat, bitPosition': bv8)
    requires bitPosition < 8 && 8 - bitPosition <= n <= 16 && n - (8 - bitPosition) <= 8
    requires var n2 := n - (8 - bitPosition);
      if n2 == 8 then position' == position + 2 && bitPosition' == 0
      else position' == position + 1 && bitPosition' == n2
    ensures 8 * position' + bitPosition' as int == 8 * position + bitPosition as int + n as int
  {
    SubSmall(n, 8 - bitPosition);
    SubSmall(8, bitPosition);
  }

  class Stream {
    const data: seq<bv8>
    var position: nat
    var bitPosition: bv8

    /** The cursor stays inside the data and never rests inside a missing byte. */
    ghost predicate Valid()
      reads this
    {
      bitPosition < 8 && position <= |data| && (bitPosition > 0 ==> position < |data|)
    }

    /** The number of bits consumed so far. */
    ghost function BitOffset(): nat
      reads this
    {
      8 * position + bitPosition as int
    }

    /** `From<&[u8]>`: a cursor at the first bit of `data`. */
    constructor From(data: seq<bv8>)
      ensures this.data == data && position == 0 && bitPosition == 0
      ensures Valid()
    {
      this.data := data;
      position := 0;
      bitPosition := 0;
    }

    /** A byte-aligned read of the next byte. */
    method PullByte() returns (r: Result<bv8>)
      requires Valid()
      modifies this
      ensures Valid()
      ensures old(bitPosition) > 0 ==> r == Err(MisalignedByte) && position == old(position) && bitPosition == old(bitPosition)
      ensures old(bitPosition) == 0 && old(position) == |data| ==> r == Err(NoDataRemaining) && position == old(position) && bitPosition == old(bitPosition)
      ensures old(bitPosition) == 0 && old(position) < |data| ==>
        r == Ok(data[old(position)]) && position == old(position) + 1 && bitPosition == 0
    {
      if bitPosition > 0 {
        return Err(MisalignedByte);
      } else if position >= |data| {
        return Err(NoDataRemaining);
      }
      var v := data[position];
      position := position + 1;
      return Ok(v);
    }

    /** Reads the next stream bit, moving to the next byte after bit 7. */
    method PullBit() returns (r: Result<bool>)
      requires Valid()
      modifies this
      ensures Valid()
      ensures old(position) == |data| ==> r == Err(NoDataRemaining) && position == old(position) && bitPosition == old(bitPosition)
      ensures old(position) < |data| ==>
        && r == Ok(BitOf(data[old(position)], old(bitPosition)))
        && (if old(bitPosition) == 7 then position == old(position) + 1 && bitPosition == 0
            else position == old(position) && bitPosition == old(bitPosition) + 1)
      ensures old(position) < |data| ==>
        r == Ok(StreamBit(data, old(BitOffset()))) && BitOffset() == old(BitOffset()) + 1
    {
      if position >= |data| {
        return Err(NoDataRemaining);
      }
      var v := (data[position] & (1 << bitPosition)) > 0;
      StreamBitInByte(data, position, bitPosition);
      if bitPosition == 7 {
        position := position + 1;
        bitPosition := 0;
      } else {
        bitPosition := bitPosition + 1;
      }
      return Ok(v);
    }

    /**
     * Reads `n` bits from the current byte, the first of them lowest; eight
     * bits are a byte-aligned `PullByte`. The requires clauses exclude the
     * panics of the source: `bitPosition + n` overflowing a `u8`, and the
     * unchecked index of the current byte.
     */
    method PullBits(n: bv8) returns (r: Result<bv8>)
      requires Valid()
      requires n == 8 || n <= 0xFF - bitPosition
      requires n != 8 && bitPosition + n <= 8 ==> position < |data|
      modifies this
      ensures Valid()
      ensures r.Ok? <==> if n == 8 then old(bitPosition) == 0 && old(position) < |data| else old(bitPosition) + n <= 8
      ensures n == 8 && old(bitPosition) > 0 ==> r == Err(MisalignedByte) && position == old(position) && bitPosition == old(bitPosition)
      ensures n == 8 && old(bitPosition) == 0 && old(position) == |data| ==> r == Err(NoDataRemaining) && position == old(position) && bitPosition == old(bitPosition)
      ensures n != 8 && old(bitPosition) + n > 8 ==> r == Err(InsufficientBits) && position == old(position) && bitPosition == old(bitPosition)
      ensures r.Ok? ==>
        && r.value == Field(data, old(BitOffset()), n)
        && (if old(bitPosition) + n == 8 then position == old(position) + 1 && bitPosition == 0
            else position == old(position) && bitPosition == old(bitPosition) + n)
      ensures r.Ok? ==> BitOffset() == old(BitOffset()) + n as int
    {
      if n == 8 {
        r := PullByte();
        if r.Ok? {
          ByteIsField(data, old(position));
          assert old(BitOffset()) == 8 * old(position);
          BitsAdvanceOffset(old(position), old(bitPosition), n, position, bitPosition);
          assert BitOffset() == old(BitOffset()) + n as int;
        }
        return;
      } else if bitPosition + n > 8 {
        return Err(InsufficientBits);
      }
      var v := Extract(data[position], bitPosition, n);
      ExtractIsField(data, position, bitPosition, n);
      assert v == Field(data, BitOffset(), n);
      if bitPosition + n == 8 {
        position := position + 1;
        bitPosition := 0;
      } else {
        bitPosition := bitPosition + n;
      }
      BitsAdvanceOffset(old(position), old(bitPosition), n, position, bitPosition);
      assert BitOffset() == old(BitOffset()) + n as int;
      return Ok(v);
    }

    /**
     * Reads `n` bits as a `u16`: the rest of the current byte, then `n - (8 - bitPosition)`
     * bits of the next byte, the bits read first going high. The two reads are
     * not atomic: when the second fails, the first stays consumed. The requires
     * clauses exclude the panics of the source: `n - (8 - bitPosition)` wrapping
     * below zero, and the second read indexing past the last byte when it asks
     * for fewer than eight bits.
     */
    method PullBitsU16(n: bv8) returns (r: Result<bv16>)
      requires Valid()
      requires n <= 16 ==> 8 - bitPosition <= n
      requires n <= 16 && n - (8 - bitPosition) < 8 && (bitPosition > 0 || position < |data|) ==> position + 1 < |data|
      modifies this
      ensures Valid()
      ensures n > 16 ==> r == Err(WidthExceedsU16) && position == old(position) && bitPosition == old(bitPosition)
      ensures n <= 16 && old(bitPosition) == 0 && old(position) == |data| ==> r == Err(NoDataRemaining) && position == old(position) && bitPosition == old(bitPosition)
      ensures n <= 16 && (old(bitPosition) > 0 || old(position) < |data|) ==>
        var n2 := n - (8 - old(bitPosition));
        && (n2 > 8 ==> r == Err(InsufficientBits) && position == old(position) + 1 && bitPosition == 0)
        && (n2 == 8 && old(position) + 1 == |data| ==> r == Err(NoDataRemaining) && position == old(position) + 1 && bitPosition == 0)
        && (n2 < 8 || (n2 == 8 && old(position) + 1 < |data|) ==> r.Ok?)
      ensures r.Ok? ==>
        var n1 := 8 - old(bitPosition);
        var n2 := n - n1;
        && r.value == Concat(Field(data, old(BitOffset()), n1), Field(data, 8 * (old(position) + 1), n2), n2)
        && r.value >> n == 0
        && (if n2 == 8 then position == old(position) + 2 && bitPosition == 0
            else position == old(position) + 1 && bitPosition == n2)
      ensures r.Ok? ==> BitOffset() == old(BitOffset()) + n as int
    {
      if n > 16 {
        return Err(WidthExceedsU16);
      }
      var n1 := 8 - bitPosition;
      var n2 := n - n1;
      ghost var start := BitOffset();
      var first := PullBits(n1);
      if first.Err? {
        return Err(first.error);
      }
      assert position == old(position) + 1 && bitPosition == 0;
      assert BitOffset() == 8 * (old(position) + 1);
      var second := PullBits(n2);
      if second.Err? {
        return Err(second.error);
      }
      assert first.value == Field(data, start, n1);
      assert second.value == Field(data, 8 * (old(position) + 1), n2);
      ConcatBound(first.value, n1, second.value, n2);
      assert n1 + n2 == n;
      U16AdvanceOffset(old(position), old(bitPosition), n, position, bitPosition);
      return Ok(Concat(first.value, second.value, n2));
    }
  }
}
