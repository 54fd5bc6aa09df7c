/** Wire layout of the reliable Mesh frames. A data frame replaces the five-byte bridge
    prefix ('M', 'B', 1, channel) by a seven-byte reliability header that keeps the channel. */
module MeshFrame {

  type u8 = x: int | 0 <= x < 0x100
  type u16 = x: int | 0 <= x < 0x1_0000
  type Bytes = seq<u8>

  const VENDOR_PREFIX_BYTES := 3
  const BRIDGE_FRAME_PREFIX_BYTES := 5
  const RELIABLE_DATA_HEADER_BYTES := 10
  const RELIABLE_ACK_HEADER_BYTES := 8
  const RELIABLE_DATA: u8 := 0xd1
  const RELIABLE_DATA_NO_TURN: u8 := 0xd4
  const RELIABLE_ACK: u8 := 0xd2
  const RELIABLE_RECEIPT_QUERY: u8 := 0xd3
  const LETTER_M: u8 := 0x4d
  const LETTER_B: u8 := 0x42

  function LowByte(x: nat): u8 { x % 0x100 }
  function HighByte(x: nat): u8 { x / 0x100 % 0x100 }
  function LittleEndian(low: u8, high: u8): nat { low as int + 0x100 * (high as int) }

  function Sequence(data: Bytes): nat
    requires |data| >= RELIABLE_ACK_HEADER_BYTES
  { LittleEndian(data[4], data[5]) }

  function SwarmId(data: Bytes): nat
    requires |data| >= RELIABLE_ACK_HEADER_BYTES
  { LittleEndian(data[6], data[7]) }

  function ChannelId(data: Bytes): nat
    requires |data| >= RELIABLE_DATA_HEADER_BYTES
  { LittleEndian(data[8], data[9]) }

  function VendorOpcode(data: Bytes): nat
    requires |data| >= VENDOR_PREFIX_BYTES
  { data[0] as int + 0x100 * (data[1] as int) + 0x1_0000 * (data[2] as int) }

  /** A payload the reliable branch accepts: vendor prefix, then 'M', 'B', version 1, channel. */
  predicate IsBridgeFrame(payload: Bytes) {
    && |payload| >= VENDOR_PREFIX_BYTES + BRIDGE_FRAME_PREFIX_BYTES
    && payload[3] == LETTER_M && payload[4] == LETTER_B && payload[5] == 1
  }

  function BridgeChannel(payload: Bytes): nat
    requires IsBridgeFrame(payload)
  { LittleEndian(payload[6], payload[7]) }

  /** The compact header shared by data frames, receipts and receipt queries. */
  function Header(prefix: Bytes, marker: u8, sequence: nat, swarmId: nat): Bytes {
    prefix + [marker] + [LowByte(sequence), HighByte(sequence)] + [LowByte(swarmId), HighByte(swarmId)]
  }

  /** Wrap one bridge payload; the stored form always carries the no-turn marker. */
  function WrapData(payload: Bytes, sequence: nat, swarmId: nat): Bytes
    requires |payload| >= VENDOR_PREFIX_BYTES + BRIDGE_FRAME_PREFIX_BYTES
  {
    Header(payload[..3], RELIABLE_DATA_NO_TURN, sequence, swarmId) + [payload[6], payload[7]] + payload[8..]
  }

  /** The bridge payload a receiver rebuilds from a data frame. */
  function Reconstruct(data: Bytes): Bytes
    requires |data| >= RELIABLE_DATA_HEADER_BYTES
  {
    data[..3] + [LETTER_M, LETTER_B, 1, data[8], data[9]] + data[10..]
  }

  predicate IsReliableFrame(data: Bytes) {
    && |data| >= RELIABLE_ACK_HEADER_BYTES
    && data[3] in {RELIABLE_DATA, RELIABLE_DATA_NO_TURN, RELIABLE_ACK, RELIABLE_RECEIPT_QUERY}
  }

  predicate IsDataFrame(data: Bytes) {
    && |data| >= RELIABLE_DATA_HEADER_BYTES
    && (data[3] == RELIABLE_DATA || data[3] == RELIABLE_DATA_NO_TURN)
  }

  predicate IsAck(data: Bytes) { |data| == RELIABLE_ACK_HEADER_BYTES && data[3] == RELIABLE_ACK }

  predicate IsQuery(data: Bytes) { |data| == RELIABLE_ACK_HEADER_BYTES && data[3] == RELIABLE_RECEIPT_QUERY }

  /** The receipt for a received data frame or query. */
  function AckFor(data: Bytes): Bytes
    requires |data| >= RELIABLE_ACK_HEADER_BYTES
  { Header(data[..3], RELIABLE_ACK, Sequence(data), SwarmId(data)) }

  /** The receipt query built from a stored data frame. */
  function QueryFor(data: Bytes): Bytes
    requires |data| >= RELIABLE_ACK_HEADER_BYTES
  { data[..8][3 := RELIABLE_RECEIPT_QUERY] }

  /** A data frame as transmitted: only the copy for the turn successor carries the turn marker. */
  function Marked(data: Bytes, turn: bool): Bytes
    requires |data| >= RELIABLE_ACK_HEADER_BYTES
  { data[3 := if turn then RELIABLE_DATA else RELIABLE_DATA_NO_TURN] }

  /** Same prefix, sequence and swarm: the identity a receipt shares with its data frame. */
  ghost predicate SameIdentity(a: Bytes, b: Bytes)
    requires |a| >= RELIABLE_ACK_HEADER_BYTES && |b| >= RELIABLE_ACK_HEADER_BYTES
  { a[..3] == b[..3] && Sequence(a) == Sequence(b) && SwarmId(a) == SwarmId(b) }

  lemma ByteSplit(x: nat)
    requires x < 0x1_0000
    ensures LittleEndian(LowByte(x), HighByte(x)) == x
  {}

  /** Header fields and bytes survive the trip over the air, for either turn marker. */
  lemma WrapRoundTrip(payload: Bytes, sequence: nat, swarmId: nat, turn: bool)
    requires IsBridgeFrame(payload) && sequence < 0x1_0000 && swarmId < 0x1_0000
    ensures var wire := Marked(WrapData(payload, sequence, swarmId), turn);
            && |wire| == |payload| + 2
            && IsReliableFrame(wire) && IsDataFrame(wire)
            && (wire[3] == RELIABLE_DATA <==> turn)
            && Sequence(wire) == sequence && SwarmId(wire) == swarmId
            && ChannelId(wire) == BridgeChannel(payload)
            && VendorOpcode(wire) == VendorOpcode(payload)
            && Reconstruct(wire) == payload
  {
    var data := WrapData(payload, sequence, swarmId);
    var wire := Marked(data, turn);
    ByteSplit(sequence);
    ByteSplit(swarmId);
    assert wire[..3] == payload[..3];
    assert wire[10..] == payload[8..];
    assert payload == payload[..3] + [LETTER_M, LETTER_B, 1, payload[6], payload[7]] + payload[8..];
  }

  /** The bytes on the air: vendor prefix, marker, sequence and swarm id low byte first, then the channel and the
      payload as the bridge frame had them. */
  lemma WireBytes(payload: Bytes, sequence: nat, swarmId: nat, turn: bool)
    requires |payload| >= VENDOR_PREFIX_BYTES + BRIDGE_FRAME_PREFIX_BYTES && sequence < 0x1_0000 && swarmId < 0x1_0000
    ensures var wire := Marked(WrapData(payload, sequence, swarmId), turn);
            && wire[..3] == payload[..3] && wire[3] == (if turn then 0xd1 else 0xd4)
            && wire[4] as int + 0x100 * (wire[5] as int) == sequence && wire[6] as int + 0x100 * (wire[7] as int) == swarmId
            && wire[8..] == payload[6..]
  {
    var wire := Marked(WrapData(payload, sequence, swarmId), turn);
    assert wire[..3] == payload[..3];
    assert wire[8..] == payload[6..];
  }

  /** Only the bridge frames survive: a payload of sufficient length is returned unchanged by the
      receiver exactly when the sender's frame check accepts it. */
  lemma RoundTripIffAccepted(payload: Bytes, sequence: nat, swarmId: nat, turn: bool)
    requires |payload| >= VENDOR_PREFIX_BYTES + BRIDGE_FRAME_PREFIX_BYTES
    requires sequence < 0x1_0000 && swarmId < 0x1_0000
    ensures Reconstruct(Marked(WrapData(payload, sequence, swarmId), turn)) == payload <==> IsBridgeFrame(payload)
  {
    var back := Reconstruct(Marked(WrapData(payload, sequence, swarmId), turn));
    assert back[3] == LETTER_M && back[4] == LETTER_B && back[5] == 1;
    if IsBridgeFrame(payload) {
      WrapRoundTrip(payload, sequence, swarmId, turn);
    }
  }

  /** Receipts and queries keep the identity of the frame they refer to. */
  lemma ControlFramesKeepIdentity(data: Bytes)
    requires |data| >= RELIABLE_ACK_HEADER_BYTES
    ensures IsAck(AckFor(data)) && SameIdentity(AckFor(data), data)
    ensures IsQuery(QueryFor(data)) && SameIdentity(QueryFor(data), data)
  {
    ReceiptBytes(data);
    assert QueryFor(data)[..3] == data[..3];
  }

  /** A receipt is the first eight bytes of its frame under the receipt marker. */
  lemma ReceiptBytes(data: Bytes)
    requires |data| >= RELIABLE_ACK_HEADER_BYTES
    ensures AckFor(data) == data[..3] + [RELIABLE_ACK] + data[4..8]
  {}

  /** Byte-by-byte assembly of the wrapped frame. */
  method MakeReliableData(payload: Bytes, sequence: nat, swarmId: nat) returns (wrapped: Bytes)
    requires |payload| >= VENDOR_PREFIX_BYTES + BRIDGE_FRAME_PREFIX_BYTES
    ensures wrapped == WrapData(payload, sequence, swarmId)
  {
    wrapped := payload[..VENDOR_PREFIX_BYTES];
    wrapped := wrapped + [RELIABLE_DATA_NO_TURN];
    wrapped := wrapped + [LowByte(sequence)];
    wrapped := wrapped + [HighByte(sequence)];
    wrapped := wrapped + [LowByte(swarmId)];
    wrapped := wrapped + [HighByte(swarmId)];
    wrapped := wrapped + [payload[6]];
    wrapped := wrapped + [payload[7]];
    wrapped := wrapped + payload[VENDOR_PREFIX_BYTES + BRIDGE_FRAME_PREFIX_BYTES..];
  }
}
