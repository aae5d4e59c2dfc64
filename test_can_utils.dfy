/** The inverse encoders of the unit tests, which build a BMS heartbeat or
  * discharge response message object byte by byte, the round trips they
  * complete with the decoders, and the four asserted test scenarios. */
module TestCanUtils {
  import opened BitField
  import opened CanConstants
  import opened CanUtils

  /** Bytes 0..3 of a heartbeat message as the uint32_t word of the test
    * helper: state and soc_percentage shifted to their fields (positions
    * within bytes 0..3) and ORed together, then truncated to 32 bits. The
    * word is kept in a bv64 whose upper half is zero. */
  function HeartbeatWord32(state: bv64, socPercentage: bv64): (w: bv64)
    ensures w <= 0xFFFF_FFFF
    ensures w >> 29 == (state | (socPercentage >> 10)) & 7
    ensures (w >> 19) & 0x3FF == socPercentage & 0x3FF
  {
    ((state << (STATE_FIELD.lowBit - 32)) | (socPercentage << (SOC_PERCENTAGE_FIELD.lowBit - 32)))
      & 0xFFFF_FFFF
  }

  /** Byte i (0 = most significant) of a 32-bit word. */
  function Word32Byte(w: bv64, i: bv32): bv8
    requires i <= 3
  {
    ((w >> (3 - i) * 8) & 0xFF) as bv8
  }

  /** The eight data bytes constructBMSHeartbeatCANMessageObject writes. */
  function HeartbeatBytes(state: bv64, socPercentage: bv64): (d: seq<bv8>)
    ensures |d| == 8
  {
    var w := HeartbeatWord32(state, socPercentage);
    [Word32Byte(w, 0), Word32Byte(w, 1), Word32Byte(w, 2), Word32Byte(w, 3), 0, 0, 0, 0]
  }

  /** The eight data bytes constructDischargeResponseCANMessageObject
    * writes: the response at its position in byte 0, truncated to a byte. */
  function DischargeResponseBytes(dischargeResponse: bv64): (d: seq<bv8>)
    ensures |d| == 8
  {
    [((dischargeResponse << (DISCHARGE_RESPONSE_FIELD.lowBit - 56)) & 0xFF) as bv8, 0, 0, 0, 0, 0, 0, 0]
  }

  /** constructBMSHeartbeatCANMessageObject: set the identifier, write the
    * big-endian split of the 32-bit word into bytes 0..3, zero bytes 4..7. */
  method ConstructBmsHeartbeatCanMessageObject(state: bv64, socPercentage: bv64, msg: CanMsgObj)
    requires msg.data.Length == 8
    modifies msg, msg.data
    ensures msg.modeId == BmsHeartbeatId
    ensures msg.data[..] == HeartbeatBytes(state, socPercentage)
  {
    msg.modeId := BmsHeartbeatId;
    var canMessageBytes03 := HeartbeatWord32(state, socPercentage);
    var maxByteFourByteNumber: bv32 := 3;
    var i: bv32 := 0;
    while i <= maxByteFourByteNumber
      invariant i <= 4
      invariant msg.modeId == BmsHeartbeatId
      invariant forall k :: 0 <= k < i as int ==> msg.data[k] == HeartbeatBytes(state, socPercentage)[k]
    {
      msg.data[i] := Word32Byte(canMessageBytes03, i);
      i := i + 1;
    }
    var canMessageMaxByte: bv32 := 7;
    i := maxByteFourByteNumber + 1;
    while i <= canMessageMaxByte
      invariant 4 <= i <= 8
      invariant msg.modeId == BmsHeartbeatId
      invariant forall k :: 0 <= k < i as int ==> msg.data[k] == HeartbeatBytes(state, socPercentage)[k]
    {
      msg.data[i] := 0;
      i := i + 1;
    }
  }

  /** constructDischargeResponseCANMessageObject: set the identifier, put the
    * response into bit 7 of byte 0 and zero bytes 1..7. */
  method ConstructDischargeResponseCanMessageObject(dischargeResponse: bv64, msg: CanMsgObj)
    requires msg.data.Length == 8
    modifies msg, msg.data
    ensures msg.modeId == BmsDischargeResponseId
    ensures msg.data[..] == DischargeResponseBytes(dischargeResponse)
  {
    msg.modeId := BmsDischargeResponseId;
    var bitsInByte: bv8 := 8;
    msg.data[0] := ((dischargeResponse << (bitsInByte - 1)) & 0xFF) as bv8;
    var i: bv8 := 1;
    while i < bitsInByte
      invariant 1 <= i <= 8
      invariant msg.modeId == BmsDischargeResponseId
      invariant msg.data[0] == DischargeResponseBytes(dischargeResponse)[0]
      invariant forall k :: 1 <= k < i as int ==> msg.data[k] == 0
    {
      msg.data[i] := 0;
      i := i + 1;
    }
  }

  /** The split of a 32-bit word into bytes 0..3, followed by four zero
    * bytes, assembles to that word in the upper half of the payload. */
  lemma Split32Assemble(w: bv64)
    requires w <= 0xFFFF_FFFF
    ensures Assemble(Word32Byte(w, 0), Word32Byte(w, 1), Word32Byte(w, 2), Word32Byte(w, 3), 0, 0, 0, 0)
         == w << 32
  {
  }

  /** The heartbeat message's payload word is the 32-bit word in its upper
    * half and zeros in its lower half. */
  lemma HeartbeatBytesLayout(state: bv64, socPercentage: bv64)
    ensures BigEndianWord(HeartbeatBytes(state, socPercentage))
         == HeartbeatWord32(state, socPercentage) << 32
  {
    Split32Assemble(HeartbeatWord32(state, socPercentage));
  }

  lemma HeartbeatWord32Value(state: bv64, socPercentage: bv64)
    ensures HeartbeatWord32(state, socPercentage) == ((state << 29) | (socPercentage << 19)) & 0xFFFF_FFFF
  {
  }

  /** The heartbeat payload word: state at bit 61 and soc_percentage at bit
    * 51, cut off below bit 32 of the word. */
  lemma HeartbeatPayloadWord(state: bv64, socPercentage: bv64)
    ensures BigEndianWord(HeartbeatBytes(state, socPercentage))
         == (((state << 29) | (socPercentage << 19)) & 0xFFFF_FFFF) << 32
  {
    HeartbeatBytesLayout(state, socPercentage);
    HeartbeatWord32Value(state, socPercentage);
  }

  /** Where state and soc_percentage end up in the upper half of the word. */
  lemma HeartbeatWordFields(x: bv64, state: bv64, socPercentage: bv64)
    requires x == ((state << 29) | (socPercentage << 19)) & 0xFFFF_FFFF
    ensures (x << 32) >> 61 == (state | (socPercentage >> 10)) & 7
    ensures ((x << 32) >> 51) & 0x3FF == socPercentage & 0x3FF
  {
  }

  lemma DecodeHeartbeatOfFields(w: bv64, state: bv64, socPercentage: bv64)
    requires w >> 61 == state && (w >> 51) & 0x3FF == socPercentage
    ensures DecodeHeartbeat(w) == BmsHeartbeat(state as bv8, socPercentage as bv16)
  {
  }

  /** The decoder applied to the payload word of HeartbeatPayloadWord. */
  lemma DecodeHeartbeatPayloadWord(state: bv64, socPercentage: bv64)
    ensures DecodeHeartbeat((((state << 29) | (socPercentage << 19)) & 0xFFFF_FFFF) << 32)
         == BmsHeartbeat(((state | (socPercentage >> 10)) & 7) as bv8, (socPercentage & 0x3FF) as bv16)
  {
    var x := ((state << 29) | (socPercentage << 19)) & 0xFFFF_FFFF;
    HeartbeatWordFields(x, state, socPercentage);
    DecodeHeartbeatOfFields(x << 32, (state | (socPercentage >> 10)) & 7, socPercentage & 0x3FF);
  }

  /** What the decoder reads back from the encoder for ANY pair of 64-bit
    * arguments: soc_percentage keeps its low 10 bits, and its bits 10..12
    * spill into the state field, which keeps the low 3 bits of state. */
  lemma HeartbeatRoundTripAnyInput(state: bv64, socPercentage: bv64)
    ensures DecodeHeartbeat(BigEndianWord(HeartbeatBytes(state, socPercentage)))
         == BmsHeartbeat(((state | (socPercentage >> 10)) & 7) as bv8, (socPercentage & 0x3FF) as bv16)
  {
    HeartbeatPayloadWord(state, socPercentage);
    DecodeHeartbeatPayloadWord(state, socPercentage);
  }

  /** Round trip: a 3-bit state and a 10-bit soc_percentage encoded by the
    * test helper decode back exactly. */
  lemma HeartbeatRoundTrip(state: bv64, socPercentage: bv64)
    requires state < 8 && socPercentage < 1024
    ensures DecodeHeartbeat(BigEndianWord(HeartbeatBytes(state, socPercentage)))
         == BmsHeartbeat(state as bv8, socPercentage as bv16)
  {
    HeartbeatRoundTripAnyInput(state, socPercentage);
  }

  /** What the decoder reads back from the discharge encoder for ANY
    * argument: its lowest bit. */
  lemma DischargeResponseRoundTripAnyInput(dischargeResponse: bv64)
    ensures DecodeDischargeResponse(BigEndianWord(DischargeResponseBytes(dischargeResponse)))
         == BmsDischargeResponse((dischargeResponse & 1) as bv8)
  {
    var w := BigEndianWord(DischargeResponseBytes(dischargeResponse));
    assert w == ((dischargeResponse & 1) << 63);
  }

  /** Round trip: NOT_READY and READY encode and decode back unchanged. */
  lemma DischargeResponseRoundTrip(dischargeResponse: bv8)
    requires dischargeResponse <= 1
    ensures DecodeDischargeResponse(BigEndianWord(DischargeResponseBytes(dischargeResponse as bv64)))
         == BmsDischargeResponse(dischargeResponse)
  {
    DischargeResponseRoundTripAnyInput(dischargeResponse as bv64);
  }

  /** test_CAN_MakeBMSHeartbeat_NoOneBitsLeftmostAndRightmostSide. */
  method TestMakeBmsHeartbeatNoOneBitsLeftmostAndRightmostSide() returns (hb: BmsHeartbeat)
    ensures hb == BmsHeartbeat(BMS_STATE_STANDBY, 1)
  {
    var msg := new CanMsgObj();
    ConstructBmsHeartbeatCanMessageObject(BMS_STATE_STANDBY as bv64, 1, msg);
    hb := CanMakeBmsHeartbeat(msg);
    HeartbeatRoundTrip(BMS_STATE_STANDBY as bv64, 1);
  }

  /** test_CAN_MakeBMSHeartbeat_OneBitsLeftmostAndRightmostSide: both edge
    * bits of each field set. */
  method TestMakeBmsHeartbeatOneBitsLeftmostAndRightmostSide() returns (hb: BmsHeartbeat)
    ensures hb == BmsHeartbeat(BMS_STATE_ERROR, 0x201)
  {
    var msg := new CanMsgObj();
    ConstructBmsHeartbeatCanMessageObject(BMS_STATE_ERROR as bv64, 0x201, msg);
    hb := CanMakeBmsHeartbeat(msg);
    HeartbeatRoundTrip(BMS_STATE_ERROR as bv64, 0x201);
  }

  /** test_CAN_MakeBMSDischargeResponse_Ready. */
  method TestMakeBmsDischargeResponseReady() returns (r: BmsDischargeResponse)
    ensures r == BmsDischargeResponse(DISCHARGE_RESPONSE_READY)
  {
    var msg := new CanMsgObj();
    ConstructDischargeResponseCanMessageObject(DISCHARGE_RESPONSE_READY as bv64, msg);
    r := CanMakeBmsDischargeResponse(msg);
    DischargeResponseRoundTrip(DISCHARGE_RESPONSE_READY);
  }

  /** test_CAN_MakeBMSDischargeResponse_NotReady. */
  method TestMakeBmsDischargeResponseNotReady() returns (r: BmsDischargeResponse)
    ensures r == BmsDischargeResponse(DISCHARGE_RESPONSE_NOT_READY)
  {
    var msg := new CanMsgObj();
    ConstructDischargeResponseCanMessageObject(DISCHARGE_RESPONSE_NOT_READY as bv64, msg);
    r := CanMakeBmsDischargeResponse(msg);
    DischargeResponseRoundTrip(DISCHARGE_RESPONSE_NOT_READY);
  }
}
