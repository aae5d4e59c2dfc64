/** The frame codec: assembling the eight payload bytes of a CAN message
  * object into one big-endian 64-bit word, and decoding the BMS heartbeat
  * and BMS discharge response from that word through the bit-field table. */
module CanUtils {
  import opened BitField
  import opened CanConstants

  /** CCAN_MSG_OBJ_T: an identifier and an eight-byte data buffer. */
  class CanMsgObj {
    var modeId: MessageId
    const data: array<bv8>

    /** A message object before anything has been written into it. */
    constructor ()
      ensures data.Length == 8 && fresh(data)
    {
      modeId := OtherId(0);
      data := new bv8[8];
    }
  }

  /** The 64-bit word whose bytes, most significant first, are b0 .. b7:
    * the sum of b_i * 2^(8*(7-i)), written as an OR of disjoint shifts. */
  function Assemble(b0: bv8, b1: bv8, b2: bv8, b3: bv8, b4: bv8, b5: bv8, b6: bv8, b7: bv8): bv64 {
    (b0 as bv64 << 56) | (b1 as bv64 << 48) | (b2 as bv64 << 40) | (b3 as bv64 << 32) |
    (b4 as bv64 << 24) | (b5 as bv64 << 16) | (b6 as bv64 << 8) | b7 as bv64
  }

  /** The big-endian word of the eight data bytes: d[0] is bits 63..56 and
    * d[7] bits 7..0. */
  function BigEndianWord(d: seq<bv8>): bv64
    requires |d| == 8
  {
    Assemble(d[0], d[1], d[2], d[3], d[4], d[5], d[6], d[7])
  }

  /** The eight bytes of a word, most significant first. */
  function WordBytes(w: bv64): (d: seq<bv8>)
    ensures |d| == 8
  {
    [(w >> 56) as bv8, ((w >> 48) & 0xFF) as bv8, ((w >> 40) & 0xFF) as bv8, ((w >> 32) & 0xFF) as bv8,
     ((w >> 24) & 0xFF) as bv8, ((w >> 16) & 0xFF) as bv8, ((w >> 8) & 0xFF) as bv8, (w & 0xFF) as bv8]
  }

  /** Each byte can be read back from its position in the assembled word. */
  lemma AssembleBytes(b0: bv8, b1: bv8, b2: bv8, b3: bv8, b4: bv8, b5: bv8, b6: bv8, b7: bv8)
    ensures var w := Assemble(b0, b1, b2, b3, b4, b5, b6, b7);
      && (w >> 56) as bv8 == b0 && ((w >> 48) & 0xFF) as bv8 == b1
      && ((w >> 40) & 0xFF) as bv8 == b2 && ((w >> 32) & 0xFF) as bv8 == b3
      && ((w >> 24) & 0xFF) as bv8 == b4 && ((w >> 16) & 0xFF) as bv8 == b5
      && ((w >> 8) & 0xFF) as bv8 == b6 && (w & 0xFF) as bv8 == b7
  {
  }

  /** Every byte lands at its big-endian position: splitting the assembled
    * word gives back the bytes. */
  lemma WordBytesOfBigEndianWord(d: seq<bv8>)
    requires |d| == 8
    ensures WordBytes(BigEndianWord(d)) == d
  {
    AssembleBytes(d[0], d[1], d[2], d[3], d[4], d[5], d[6], d[7]);
    assert d == [d[0], d[1], d[2], d[3], d[4], d[5], d[6], d[7]];
  }

  /** Assembling the bytes of a word gives back the word, so every 64-bit
    * payload arises from exactly one byte sequence. */
  lemma BigEndianWordOfWordBytes(w: bv64)
    ensures BigEndianWord(WordBytes(w)) == w
  {
  }

  /** The accumulator of construct_64_bit_can_message after the bytes
    * before index n have been ORed in. */
  function PartialWord(d: seq<bv8>, n: bv8): bv64
    requires |d| == 8 && n <= 8
  {
    if n == 0 then 0
    else PartialWord(d, n - 1) | (d[n - 1] as bv64 << (8 - 1 - (n - 1)) * 8)
  }

  lemma PartialWordStep(d: seq<bv8>, n: bv8)
    requires |d| == 8 && 0 < n <= 8
    ensures PartialWord(d, n) == PartialWord(d, n - 1) | (d[n - 1] as bv64 << (8 - n) * 8)
  {
  }

  /** After all eight bytes the accumulator is the big-endian word. */
  lemma {:induction false} PartialWordComplete(d: seq<bv8>)
    requires |d| == 8
    ensures PartialWord(d, 8) == BigEndianWord(d)
  {
    PartialWordStep(d, 1);
    PartialWordStep(d, 2);
    PartialWordStep(d, 3);
    PartialWordStep(d, 4);
    PartialWordStep(d, 5);
    PartialWordStep(d, 6);
    PartialWordStep(d, 7);
    PartialWordStep(d, 8);
  }

  /** construct_64_bit_can_message: OR each byte into the accumulator at its
    * big-endian position; the message object is only read. */
  method Construct64BitCanMessage(msg: CanMsgObj) returns (canMessage: bv64)
    requires msg.data.Length == 8
    ensures canMessage == BigEndianWord(msg.data[..])
    ensures WordBytes(canMessage) == msg.data[..]
  {
    var bytesInCanMessage: bv8 := 8;
    var bitsInByte: bv8 := 8;
    canMessage := 0;
    var i: bv8 := 0;
    while i < bytesInCanMessage
      invariant i <= 8
      invariant canMessage == PartialWord(msg.data[..], i)
    {
      canMessage := canMessage | (msg.data[i] as bv64 << (bytesInCanMessage - 1 - i) * bitsInByte);
      i := i + 1;
    }
    PartialWordComplete(msg.data[..]);
    WordBytesOfBigEndianWord(msg.data[..]);
  }

  /** BMS_HEARTBEAT_T: uint8_t state, uint16_t soc_percentage. */
  datatype BmsHeartbeat = BmsHeartbeat(state: bv8, socPercentage: bv16)

  /** BMS_DISCHARGE_RESPONSE_T: uint8_t discharge_response. */
  datatype BmsDischargeResponse = BmsDischargeResponse(dischargeResponse: bv8)

  /** The heartbeat fields of a payload word, neither validated nor clamped:
    * state is bits 63..61 and soc_percentage bits 60..51. */
  function DecodeHeartbeat(w: bv64): (hb: BmsHeartbeat)
    ensures hb.state < 8 && hb.socPercentage < 1024
    ensures hb.state as bv64 == w >> 61
    ensures hb.socPercentage as bv64 == (w >> 51) & 0x3FF
  {
    ExtractState(w);
    ExtractSocPercentage(w);
    BmsHeartbeat(Extract(w, STATE_FIELD) as bv8, Extract(w, SOC_PERCENTAGE_FIELD) as bv16)
  }

  /** The discharge response of a payload word: bit 63. */
  function DecodeDischargeResponse(w: bv64): (r: BmsDischargeResponse)
    ensures r.dischargeResponse <= 1
    ensures r.dischargeResponse == 1 <==> w & 0x8000000000000000 != 0
  {
    ExtractDischargeResponse(w);
    BmsDischargeResponse(Extract(w, DISCHARGE_RESPONSE_FIELD) as bv8)
  }

  /** CAN_MakeBMSHeartbeat: decode the heartbeat of a message object; the
    * message object is only read. */
  method CanMakeBmsHeartbeat(msg: CanMsgObj) returns (hb: BmsHeartbeat)
    requires msg.data.Length == 8
    ensures hb == DecodeHeartbeat(BigEndianWord(msg.data[..]))
    ensures hb.state as bv64 == (msg.data[0] >> 5) as bv64
  {
    var canMessage := Construct64BitCanMessage(msg);
    hb := DecodeHeartbeat(canMessage);
  }

  /** CAN_MakeBMSDischargeResponse: decode the discharge response of a
    * message object from its big-endian word; the object is only read. */
  method CanMakeBmsDischargeResponse(msg: CanMsgObj) returns (r: BmsDischargeResponse)
    requires msg.data.Length == 8
    ensures r == DecodeDischargeResponse(BigEndianWord(msg.data[..]))
    ensures r.dischargeResponse == (msg.data[0] >> 7) as bv8
  {
    var canMessage := Construct64BitCanMessage(msg);
    r := DecodeDischargeResponse(canMessage);
  }

  /** Heartbeat decoding ignores bits 50..0: flipping any of them leaves
    * state and soc_percentage unchanged. */
  lemma HeartbeatIgnoresLowBits(w: bv64, flips: bv64)
    requires flips & 0xFFF8000000000000 == 0
    ensures DecodeHeartbeat(w ^ flips) == DecodeHeartbeat(w)
  {
  }

  /** Two words decode to the same heartbeat exactly when they agree on
    * bits 63..51. */
  lemma HeartbeatDeterminedByTopBits(w: bv64, v: bv64)
    ensures DecodeHeartbeat(w) == DecodeHeartbeat(v) <==> w >> 51 == v >> 51
  {
    var a, b := DecodeHeartbeat(w), DecodeHeartbeat(v);
    if a == b {
      TopBitsFromFields(w);
      TopBitsFromFields(v);
    } else {
      assert a.state != b.state || a.socPercentage != b.socPercentage;
    }
  }

  lemma TopBitsFromFields(w: bv64)
    ensures w >> 51 == (DecodeHeartbeat(w).state as bv64 << 10) | DecodeHeartbeat(w).socPercentage as bv64
  {
  }

  /** No validation and no clamping: every 3-bit state code (the reserved
    * codes 6 and 7 included) and every 10-bit soc_percentage (above 100
    * included) is decoded unchanged from the word that carries it. */
  lemma HeartbeatDecodesEveryCode(state: bv8, soc: bv16)
    requires state < 8 && soc < 1024
    ensures DecodeHeartbeat((state as bv64 << 61) | (soc as bv64 << 51)) == BmsHeartbeat(state, soc)
  {
    var hb := DecodeHeartbeat((state as bv64 << 61) | (soc as bv64 << 51));
    assert hb.state as bv64 == state as bv64;
    assert hb.socPercentage as bv64 == soc as bv64;
  }

  /** The discharge response depends on bit 63 alone: flipping any of the
    * other 63 bits leaves it unchanged. */
  lemma DischargeResponseIgnoresOtherBits(w: bv64, flips: bv64)
    requires flips & 0x8000000000000000 == 0
    ensures DecodeDischargeResponse(w ^ flips) == DecodeDischargeResponse(w)
  {
  }
}
