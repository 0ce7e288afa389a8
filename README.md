# libmpeg-rs: the bit cursor and the transport-packet record, in Dafny

This project models two parts of the MPEG transport-stream library `libmpeg`.

- **The bit cursor `Stream`** (src/stream.rs). It reads from a borrowed byte
  slice. It keeps a byte index `position` and a bit index `bit_position`
  within the current byte. It offers:
  - `pull_byte`: a byte-aligned byte;
  - `pull_bit`: one bit;
  - `pull_bits(n)`: up to eight bits from the current byte, extracted through a
    hand-built mask;
  - `pull_bits_u16(n)`: the rest of the current byte spliced above bits of the
    next one.

  Every failure is a `Result` error. Bits are numbered from the least
  significant bit of each byte, as Rust's shifts number them, and bytes
  follow one another. Stream bit `k` is therefore bit `k % 8` of byte `k / 8`.
- **The packet record** (src/packet.rs):
  - the constants `SYNC_BYTE = 0x47`, `PACKET_SIZE = 188` and
    `MAX_PAYLOAD_SIZE = 184`, the sizes of section 2.4.3.2 of ISO/IEC 13818-1;
  - the 188-byte `BinaryPacket`;
  - the decoded `Packet`, with its null packet, its `Default` and its six
    read-only accessors.

Files:

- `bits.dfy` (module `Bits`): the pure bit arithmetic over `bv8`/`bv16`
  (Rust's `u8`/`u16`). It covers the mask of `pull_bits`, the `u16` splice of
  `pull_bits_u16`, and the facts proved about them.
- `stream.dfy` (module `Streams`):
  - the reference reading `Field(data, k, n)`: the `n` stream bits from bit
    `k`, the first lowest;
  - lemmas tying the mask arithmetic to `Field`;
  - the class `Stream`, whose methods update `position` and `bitPosition` in
    place. `PullBits` and `PullBitsU16` are proved against `Field`.
    `PullByte` is specified by the byte it returns. `PullBit` is specified by
    the bit of the current byte and by the stream bit it reads.
- `packet.dfy` (module `Packets`): the packet record, its constants and its
  lemmas.
- `scenarios.dfy` (module `StreamScenarios`):
  - the test vectors of tests/stream.rs, as verified call sequences on fresh
    cursors;
  - a verified call sequence showing that `pull_bits_u16` is not atomic.

## Model

| member | source | states |
|---|---|---|
| `Bits.TruncateToU8` | src/stream.rs:69 | `x as u8` is the `u16` value modulo 256. |
| `Bits.Mask` | src/stream.rs:68-69 | The mask expression of `pull_bits`, operator for operator. `Bits.MaskSelectsField` states what it selects. |
| `Bits.MaskSelectsField` | src/stream.rs:68-69 | The mask built from `marker = 1 << bit_position` has bit `i` set if and only if `bit_position <= i < bit_position + n`. |
| `Bits.Extract` | src/stream.rs:70 | The masked byte shifted down by `bit_position`, as `pull_bits` computes it for reads under eight bits. `Bits.ExtractIsShiftedByte`, `Bits.ExtractBound` and `Streams.ExtractIsField` state its value. |
| `Bits.ExtractIsShiftedByte` | src/stream.rs:68-70 | Masking the byte and shifting it down by `bit_position` gives the byte shifted right by `bit_position`, cut to its `n` low bits. |
| `Bits.ExtractBound` | src/stream.rs:68-70 | The value the mask extracts for an `n`-bit read is below `2^n`. |
| `Bits.Concat` | src/stream.rs:89 | The splice of the two reads: the first, widened to `u16`, shifted left by `n2`, with the second or-ed into its low bits. `Bits.ConcatParts` and `Bits.ConcatBound` state its properties. |
| `Bits.ConcatParts` | src/stream.rs:89 | The `u16` splice loses nothing. Shifting the result right by `n2` gives back the first read. Its `n2` low bits are the second read. |
| `Bits.ConcatBound` | src/stream.rs:89 | Splicing an `n1`-bit value above an `n2`-bit value gives a value below `2^(n1+n2)`. |
| `Streams.Field` | src/stream.rs:40-42 | The reference reading: the `n` stream bits from bit `k`, the first of them lowest. It is always below `2^n`. |
| `Streams.StreamBitInByte` | src/stream.rs:28 | Stream bit `8*p + i` is bit `i` of byte `p`, the bit `pull_bit` tests with `1 << bit_position`. |
| `Streams.ExtractIsField` | src/stream.rs:68-70 | For every byte, start bit and width under eight, the masked extraction of `pull_bits` equals the reference reading from stream bit `8*p + bit_position`. Proved by induction on the width. |
| `Streams.ByteIsField` | src/stream.rs:43-44 | A byte-aligned eight-bit reading is the whole byte, so a `pull_bits(8)` delegated to `pull_byte` agrees with the reference reading. |
| `Streams.FieldInByte` | src/stream.rs:42-80 | Every reading that stays inside one byte is that byte shifted right by the start bit and cut to `n` bits. This includes the eight-bit case. |
| `Streams.AlignedU16IsBigEndian` | src/stream.rs:82-89 | Two byte-aligned eight-bit readings spliced as `pull_bits_u16(16)` does give the big-endian `u16` of the two bytes. |
| `Streams.BitsAdvanceOffset` | src/stream.rs:72-77 | The cursor update of `pull_bits` advances the consumed-bit count `8*position + bit_position` by exactly `n`. `PullBits` calls it for its own consumed-bit clause. |
| `Streams.U16AdvanceOffset` | src/stream.rs:87-89 | The combined cursor update of the two reads of `pull_bits_u16` advances the consumed-bit count by exactly `n`. `PullBitsU16` calls it for its own consumed-bit clause. |
| `Streams.Stream.Valid` | src/stream.rs:3-7 | The cursor invariant: `bit_position < 8`, `position` at most the length, and a partly read byte is never past the end. Every method keeps it. |
| `Streams.Stream.From` | src/stream.rs:94-101 | A new cursor holds the data and starts at byte 0, bit 0. |
| `Streams.Stream.PullByte` | src/stream.rs:11-21 | Fails with the misaligned-byte error when bits of the current byte are consumed. Otherwise fails with no-data-remaining at the end. Both failures leave the cursor unmoved. Otherwise it returns the current byte and moves to the next. |
| `Streams.Stream.PullBit` | src/stream.rs:24-38 | Fails with no-data-remaining at the end, leaving the cursor unmoved. Otherwise it returns bit `bit_position` of the current byte, which is the next stream bit. It moves to the next byte after bit 7, and the consumed-bit count grows by one. |
| `Streams.Stream.PullBits` | src/stream.rs:42-80 | Succeeds exactly when the source's guards let it through. An 8-bit read behaves as `pull_byte` (its two errors). Otherwise a read past the current byte fails with the insufficient-bits error, leaving the cursor unmoved. On success it returns the reference reading of the next `n` stream bits, and the cursor moves past them, to the next byte when the read ends the byte. The consumed-bit count grows by exactly `n`. |
| `Streams.Stream.PullBitsU16` | src/stream.rs:83-91 | Fails above 16 bits. First reads the rest of the current byte, then `n - (8 - bit_position)` bits of the next byte. It names each error case and the cursor it leaves: a failed second read keeps the first read consumed. On success the result is the two readings spliced with the first one high, it is below `2^n`, the cursor position is stated, and the consumed-bit count grows by exactly `n`. |
| `StreamScenarios.PullByteVector` | tests/stream.rs:5-15 | Six byte reads of `[1, 1, 2, 3, 5, 8]` return those bytes in order. |
| `StreamScenarios.PullBitVector` | tests/stream.rs:18-38 | Sixteen bit reads of `[0b10010110, 0b10100101]` return the sixteen booleans the test expects. |
| `StreamScenarios.EightPullsYieldByte` | src/stream.rs:24-38 | Eight bit reads from a byte boundary return bits 0 to 7 of that byte and move the cursor to the next byte. |
| `StreamScenarios.PullBitsVector` | tests/stream.rs:41-51 | Reads of 2, 3, 3, 4, 1 and 3 bits of `[0b10101010, 0b10010011]` return `0b10, 0b010, 0b101, 0b0011, 0b1, 0b100`. |
| `StreamScenarios.FirstByteOfBitsVector` | tests/stream.rs:45-47 | The reads of 2, 3 and 3 bits of `0b10101010` return `0b10, 0b010, 0b101` and leave the cursor at the start of the second byte. |
| `StreamScenarios.RestOfBitsVector` | tests/stream.rs:48-50 | From the start of the second byte, the reads of 4, 1 and 3 bits of `0b10010011` return `0b0011, 0b1, 0b100`. |
| `StreamScenarios.PullBitsU16Vector` | tests/stream.rs:54-61 | Reads of 9 and 12 bits as `u16`, then 3 bits, of `[0b10010011, 0b10101010, 0b11110000]` return `0b100100110`, `0b101010110000` and `0b111`. |
| `StreamScenarios.RestOfU16Vector` | tests/stream.rs:59-60 | From the cursor state the first 9-bit read leaves, the 12-bit and 3-bit reads return `0b101010110000` and `0b111`. |
| `StreamScenarios.PullBitsU16NotAtomic` | src/stream.rs:87-89 | A 16-bit `u16` read three bits into `[0x12, 0x34]` fails with the insufficient-bits error, yet its first five bits stay consumed: the cursor ends at byte 1, bit 0. |
| `Packets.Null` | src/packet.rs:29-42 | The null packet: every flag false, pid, scrambling control and continuity counter 0, a zeroed payload. `Packets.NullPacketFields` and `Packets.NullPayloadIsZeroed` state what it shows. |
| `Packets.Default` | src/packet.rs:22-26 | `Default` delegates to the null packet. `Packets.DefaultIsNull` states it. |
| `Packets.Packet.IsTransportError` | src/packet.rs:44-46 | The getter of `transport_error_indicator`. |
| `Packets.Packet.IsPayloadUnitsStart` | src/packet.rs:48-50 | The getter of `payload_units_start_indicator`. |
| `Packets.Packet.IsTransportPriority` | src/packet.rs:52-54 | The getter of `transport_priority`. |
| `Packets.Packet.Pid` | src/packet.rs:56-58 | The getter of `pid`. |
| `Packets.Packet.TransportScramblingControl` | src/packet.rs:60-62 | The getter of `transport_scrambling_control`. |
| `Packets.Packet.ContinuityCounter` | src/packet.rs:64-66 | The getter of `continuity_counter`. `Packets.AccessorsReturnFields` states all six getters. |
| `Packets.NullPacketFields` | src/packet.rs:29-42 | Through the accessors the null packet shows every flag false and pid, scrambling control and continuity counter 0. These are the assertions of the unit test at src/packet.rs:74-82. |
| `Packets.NullPayloadIsZeroed` | src/packet.rs:40 | The null packet's payload is `MAX_PAYLOAD_SIZE` zero bytes. src/packet.rs:83 leaves this check as a TODO. |
| `Packets.DefaultIsNull` | src/packet.rs:22-26 | `Packet::default()` is the null packet. |
| `Packets.AccessorsReturnFields` | src/packet.rs:44-66 | Each of the six accessors returns the field it is named after, for every packet. |
| `Packets.PacketSizes` | src/packet.rs:2-19 | The constants and the two record types: every `BinaryPacket` has 188 bytes and every `Packet` a 184-byte payload buffer, the sizes of section 2.4.3.2 of ISO/IEC 13818-1, which leave four bytes for the header. |

## Left out

- The contracts turn Rust panics into `requires` clauses:
  - `pull_bits`: the `u8` addition `bit_position + n` overflowing;
  - `pull_bits`: the unchecked index of the current byte;
  - `pull_bits_u16`: the `u8` subtraction `n - (8 - bit_position)` falling below zero;
  - `pull_bits_u16`: the second read of fewer than eight bits when the cursor is at the last byte (a zero-bit read too).

  Callers that meet them get the source's behaviour.
- The error strings become the four constructors of `Streams.Error`, one per distinct message. The text itself is not modelled.
- Slice borrowing and lifetimes are not modelled. The cursor reads an immutable `seq<bv8>`.
- src/lib.rs only declares and re-exports modules.
- src/constants.rs is not part of this model, so the value of `MAX_PID` is unknown. tests/packet.rs:8 expects `Packet::default().pid() == MAX_PID`. That conflicts with `pid: 0` at src/packet.rs:34 and with the assertion at src/packet.rs:80. The model follows the code (pid 0) and proves nothing about `MAX_PID`.
- The comment at src/stream.rs:66 writes the extraction with `|`. The code at src/stream.rs:70 uses `&`, and the model follows the code.
- The cursor reads bits least significant first, as the code does. The standard transmits header fields most significant bit first. Decoding packet headers with this cursor is not part of the source and is not modelled.
- The fields of `Packets.Packet` have the ranges of Rust's `u32`. The source enforces no narrower range (a 13-bit pid, a 4-bit counter), so neither does the model.
- The fields commented out at src/packet.rs:15-18 are not modelled, because nothing in the source implements them: adaptation field control, adaptation field, payload slice. For the same reason there is no parsing from or serialising to a `BinaryPacket`.
