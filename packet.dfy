/**
 * The transport-stream packet record of src/packet.rs: the packet and payload
 * sizes of section 2.4.3.2 of ISO/IEC 13818-1, the raw 188-byte packet, the
 * decoded header fields with a fixed payload buffer, the null packet and the
 * read-only accessors.
 */
module Packets {
  /** The first byte of every transport packet. */
  const SYNC_BYTE: bv8 := 0x47
  /** Bytes in one transport packet. */
  const PACKET_SIZE: nat := 188
  /** Bytes left for the payload after the four-byte packet header. */
  const MAX_PAYLOAD_SIZE: nat := 184

  /** Rust's `u32`. */
  type U32 = x: int | 0 <= x < 0x1_0000_0000

  /** `[u8; PACKET_SIZE]`. */
  type PacketBytes = s: seq<bv8> | |s| == PACKET_SIZE witness seq(188, _ => 0)

  /** `[u8; MAX_PAYLOAD_SIZE]`. */
  type PayloadBuffer = s: seq<bv8> | |s| == MAX_PAYLOAD_SIZE witness seq(184, _ => 0)

  /** A packet as it travels: exactly `PACKET_SIZE` bytes. */
  datatype BinaryPacket = BinaryPacket(bytes: PacketBytes)

  /** The decoded fields of a packet, as src/packet.rs:9-20 declares them. */
  datatype Packet = Packet(
    transportErrorIndicator: bool,
    payloadUnitsStartIndicator: bool,
    transportPriority: bool,
    pid: U32,
    transportScramblingControl: U32,
    continuityCounter: U32,
    payloadBuffer: PayloadBuffer)
  {
    function IsTransportError(): bool { transportErrorIndicator }

    function IsPayloadUnitsStart(): bool { payloadUnitsStartIndicator }

    function IsTransportPriority(): bool { transportPriority }

    function Pid(): U32 { pid }

    function TransportScramblingControl(): U32 { transportScramblingControl }

    function ContinuityCounter(): U32 { continuityCounter }
  }

  /** The null packet: every flag clear, every number zero, the payload zeroed. */
  function Null(): Packet
  {
    Packet(false, false, false, 0, 0, 0, seq(MAX_PAYLOAD_SIZE, _ => 0))
  }

  /** `Default` for `Packet` delegates to `Null`. */
  function Default(): Packet
  {
    Null()
  }

  /** What a reader of the null packet sees through the accessors. */
  lemma NullPacketFields()
    ensures !Null().IsTransportError()
    ensures !Null().IsPayloadUnitsStart()
    ensures !Null().IsTransportPriority()
    ensures Null().Pid() == 0
    ensures Null().TransportScramblingControl() == 0
    ensures Null().ContinuityCounter() == 0
  {
  }

  /** The null packet's payload is `MAX_PAYLOAD_SIZE` zero bytes. */
  lemma NullPayloadIsZeroed()
    ensures |Null().payloadBuffer| == MAX_PAYLOAD_SIZE
    ensures forall i :: 0 <= i < |Null().payloadBuffer| ==> Null().payloadBuffer[i] == 0
  {
  }

  lemma DefaultIsNull()
    ensures Default() == Null()
  {
  }

  /** Every accessor hands back the value the packet was built with. */
  lemma AccessorsReturnFields(e: bool, s: bool, t: bool, pid: U32, tsc: U32, cc: U32, payload: PayloadBuffer)
    ensures var p := Packet(e, s, t, pid, tsc, cc, payload);
      && p.IsTransportError() == e
      && p.IsPayloadUnitsStart() == s
      && p.IsTransportPriority() == t
      && p.Pid() == pid
      && p.TransportScramblingControl() == tsc
      && p.ContinuityCounter() == cc
      && p.payloadBuffer == payload
  {
  }

  /** The sizes are those of section 2.4.3.2 of ISO/IEC 13818-1, whatever the packet. */
  lemma PacketSizes(b: BinaryPacket, p: Packet)
    ensures |b.bytes| == PACKET_SIZE == 188
    ensures |p.payloadBuffer| == MAX_PAYLOAD_SIZE == 184
    ensures |b.bytes| == |p.payloadBuffer| + 4
  {
  }
}
