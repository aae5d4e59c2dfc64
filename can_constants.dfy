/** Message identifiers, enumeration codes and CAN driver return codes.
  * Their numeric values live in can_constants.h and can.h, which are not
  * part of this model: identifiers and driver codes are therefore distinct
  * constructors with no numeric value, and the enumeration codes take the
  * values of their declared order. */
module CanConstants {

  newtype uint32 = x: int | 0 <= x < 0x1_0000_0000

  /** The mode_id of a CAN message object. OtherId stands for any identifier
    * the firmware does not name. */
  datatype MessageId =
    | BmsHeartbeatId
    | BmsDischargeResponseId
    | BmsPackStatusId
    | BmsCellTempsId
    | BmsErrorsId
    | VcuHeartbeatId
    | VcuDischargeRequestId
    | OtherId(raw: uint32)

  /** What CAN_Receive and CAN_Transmit return: NO_CAN_ERROR,
    * NO_RX_CAN_MESSAGE, or a driver fault code. */
  datatype CanReturn = NoCanError | NoRxCanMessage | CanFault(code: uint32)

  /** The 3-bit BMS heartbeat state codes (6 of the 8 encodings are named). */
  const BMS_STATE_INIT: bv8 := 0
  const BMS_STATE_STANDBY: bv8 := 1
  const BMS_STATE_CHARGE: bv8 := 2
  const BMS_STATE_BALANCE: bv8 := 3
  const BMS_STATE_DISCHARGE: bv8 := 4
  const BMS_STATE_ERROR: bv8 := 5

  /** The 1-bit BMS discharge response codes. */
  const DISCHARGE_RESPONSE_NOT_READY: bv8 := 0
  const DISCHARGE_RESPONSE_READY: bv8 := 1

  /** The 1-bit tags of the VCU heartbeat state and of the discharge request. */
  const VCU_HEARTBEAT_STATE_STANDBY: nat := 0
  const VCU_HEARTBEAT_STATE_DISCHARGE: nat := 1
  const VCU_DISCHARGE_REQUEST_ENTER_DISCHARGE: nat := 1
}
