/** The bit-field table shared by every encoder and decoder of the codec.
  * A field is described once, as the position of its least significant bit
  * in the 64-bit big-endian payload word (bit 0 is the last bit of byte 7,
  * bit 63 the first bit of byte 0) and its width in bits. */
module BitField {

  datatype Field = Field(lowBit: bv8, width: bv8)

  /** A field lies inside the 64-bit word and is at least one bit wide. */
  predicate WellFormed(f: Field) {
    0 < f.width <= 64 && f.lowBit <= 64 - f.width
  }

  /** BMS heartbeat: state is bits 63..61, soc_percentage bits 60..51. */
  const STATE_FIELD := Field(61, 3)
  const SOC_PERCENTAGE_FIELD := Field(51, 10)
  /** BMS discharge response: the single bit 63. */
  const DISCHARGE_RESPONSE_FIELD := Field(63, 1)

  /** The mask that selects exactly the bits of the field. */
  function Mask(f: Field): bv64
    requires WellFormed(f)
  {
    (((1 as bv64) << f.width) - 1) << f.lowBit
  }

  /** The value of the field: mask it out, then shift its low bit to bit 0. */
  function Extract(w: bv64, f: Field): bv64
    requires WellFormed(f)
  {
    (w & Mask(f)) >> f.lowBit
  }

  /** The three descriptors give exactly the masks written in the decoders. */
  lemma MasksMatchSource()
    ensures Mask(STATE_FIELD) == 0xE000000000000000
    ensures Mask(SOC_PERCENTAGE_FIELD) == 0x1FF8000000000000
    ensures Mask(DISCHARGE_RESPONSE_FIELD) == 0x8000000000000000
  {
  }

  /** Extracting a field is masking with the source's mask, then shifting
    * the field's low bit down to bit 0. */
  lemma ExtractState(w: bv64)
    ensures Extract(w, STATE_FIELD) == (w & 0xE000000000000000) >> 61
  {
    MasksMatchSource();
    assert Extract(w, STATE_FIELD) == (w & Mask(STATE_FIELD)) >> 61;
  }

  lemma ExtractSocPercentage(w: bv64)
    ensures Extract(w, SOC_PERCENTAGE_FIELD) == (w & 0x1FF8000000000000) >> 51
  {
    MasksMatchSource();
    assert Extract(w, SOC_PERCENTAGE_FIELD) == (w & Mask(SOC_PERCENTAGE_FIELD)) >> 51;
  }

  lemma ExtractDischargeResponse(w: bv64)
    ensures Extract(w, DISCHARGE_RESPONSE_FIELD) == (w & 0x8000000000000000) >> 63
  {
    MasksMatchSource();
    assert Extract(w, DISCHARGE_RESPONSE_FIELD) == (w & Mask(DISCHARGE_RESPONSE_FIELD)) >> 63;
  }

  /** The two heartbeat fields do not overlap, and together they are
    * bits 63..51. */
  lemma HeartbeatFieldsDisjoint()
    ensures Mask(STATE_FIELD) & Mask(SOC_PERCENTAGE_FIELD) == 0
    ensures Mask(STATE_FIELD) | Mask(SOC_PERCENTAGE_FIELD) == 0xFFF8000000000000
  {
    MasksMatchSource();
  }
}
