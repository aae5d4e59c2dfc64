# CAN-tester, modelled in Dafny

CAN-tester is the firmware of a small board that plays the vehicle control
unit (VCU) on a CAN bus so that a battery management system (BMS) can be
tested. This project models its core in three parts:

- **The frame codec** (`can_utils.dfy`, `bitfield.dfy`, `can_constants.dfy`).
  `construct_64_bit_can_message` packs the eight data bytes of a message
  object into one big-endian 64-bit word. `CAN_MakeBMSHeartbeat` reads the
  BMS state (bits 63..61) and the state of charge (bits 60..51) from it.
  `CAN_MakeBMSDischargeResponse` reads the discharge response (bit 63).
  Every field is described once, as a `(lowBit, width)` pair. Lemmas show
  that these pairs give exactly the masks written in the decoders.
- **The test encoders and the unit tests** (`test_can_utils.dfy`). These are
  the two helpers that build a heartbeat or discharge-response message object
  byte by byte. The model proves the round trips they complete with the
  decoders, for every input, and the four asserted test scenarios follow.
- **The VCU control loop** (`main.dfy`). This is a class that holds the
  globals of `main.c`:
  - the VCU state (STANDBY, DISCHARGE or NONE);
  - the time of the last heartbeat;
  - the reset-request flag;
  - an outbox of transmitted frames.

  Each of its methods is proved against a specification function:
  - classification of received messages;
  - keyboard commands;
  - the once-per-second heartbeat with 32-bit tick wrap-around;
  - one iteration of the main loop, and a run of iterations.

  Lemmas about those functions state how the loop behaves:
  - the reset flag reflects only the current iteration's faults;
  - after a heartbeat, no other one is sent while the ticks stay within 1000 ms of it;
  - NONE stays silent;
  - STANDBY and DISCHARGE heartbeats can be told apart.

Bytes are `bv8`, the payload word is `bv64`, and the record fields are `bv8`
and `bv16`, the widths of `uint8_t` and `uint16_t`. The tick counter is a
32-bit unsigned integer, and its subtraction wraps modulo 2^32 explicitly.

## Model

| member | source | states |
|---|---|---|
| `BitField.MasksMatchSource` | src/can_utils.c:38-39 | The descriptors (61,3), (51,10) and (63,1) produce exactly the masks 0xE000000000000000, 0x1FF8000000000000 and 0x8000000000000000. |
| `BitField.ExtractState` | src/can_utils.c:40-41 | Extracting the state field is `(word & 0xE000000000000000) >> 61`. |
| `BitField.ExtractSocPercentage` | src/can_utils.c:42-43 | Extracting the soc_percentage field is `(word & 0x1FF8000000000000) >> 51`. |
| `BitField.ExtractDischargeResponse` | src/can_utils.c:52-54 | Extracting the discharge response is `(word & 0x8000000000000000) >> 63`. |
| `BitField.HeartbeatFieldsDisjoint` | src/can_utils.c:38-39 | The state and soc_percentage masks do not overlap and together cover bits 63..51. |
| `CanUtils.CanMsgObj.constructor` | src/main.c:35 | A message object, like rx_msg, has an identifier and an eight-byte data buffer of its own. |
| `CanUtils.AssembleBytes` | src/can_utils.c:17-18 | Each of the eight bytes can be read back from its big-endian position in the assembled word. |
| `CanUtils.WordBytesOfBigEndianWord` | src/can_utils.c:11-20 | Splitting the assembled word gives back the eight bytes, so no byte is lost or moved. |
| `CanUtils.BigEndianWordOfWordBytes` | src/can_utils.c:11-20 | Assembling the bytes of any word gives back that word, so assembly is a bijection between byte sequences and words. |
| `CanUtils.PartialWordComplete` | src/can_utils.c:16-19 | After all eight steps of the OR loop, the accumulator is the big-endian word. |
| `CanUtils.Construct64BitCanMessage` | src/can_utils.c:11-20 | The loop returns the big-endian word of the message's data, and that word splits back into the same bytes. |
| `CanUtils.DecodeHeartbeat` | src/can_utils.c:35-47 | state is bits 63..61 (below 8) and soc_percentage is bits 60..51 (below 1024), with no validation or clamping. |
| `CanUtils.DecodeDischargeResponse` | src/can_utils.c:51-56 | The response is 0 or 1, and it is 1 exactly when bit 63 of the word is set. |
| `CanUtils.CanMakeBmsHeartbeat` | src/can_utils.c:23-48 | The heartbeat decoded from the message object's big-endian word; its state is the top three bits of data byte 0. |
| `CanUtils.CanMakeBmsDischargeResponse` | src/can_utils.c:50-57 | The discharge response decoded from the big-endian word, which is the top bit of data byte 0. |
| `CanUtils.HeartbeatIgnoresLowBits` | src/can_utils.c:38-43 | Flipping any of bits 50..0 leaves the decoded heartbeat unchanged. |
| `CanUtils.HeartbeatDeterminedByTopBits` | src/can_utils.c:38-43 | Two words decode to the same heartbeat if and only if they agree on bits 63..51. |
| `CanUtils.TopBitsFromFields` | src/can_utils.c:38-47 | Bits 63..51 of a word are the decoded state followed by the decoded soc_percentage. |
| `CanUtils.HeartbeatDecodesEveryCode` | src/can_utils.c:40-47 | Every 3-bit state is decoded unchanged, including the unnamed codes 6 and 7, and so is every 10-bit soc_percentage, including values above 100. |
| `CanUtils.DischargeResponseIgnoresOtherBits` | src/can_utils.c:52-54 | Flipping any bit other than bit 63 leaves the decoded discharge response unchanged. |
| `TestCanUtils.HeartbeatWord32` | test/test_can_utils.c:33-37 | The helper's 32-bit word holds the low 3 bits of state OR (soc_percentage >> 10) in bits 31..29 and the low 10 bits of soc_percentage in bits 28..19. |
| `TestCanUtils.ConstructBmsHeartbeatCanMessageObject` | test/test_can_utils.c:29-51 | Sets the heartbeat identifier and writes `HeartbeatBytes`, the big-endian split of the 32-bit word into bytes 0..3 and zeros into bytes 4..7. |
| `TestCanUtils.ConstructDischargeResponseCanMessageObject` | test/test_can_utils.c:105-114 | Sets the discharge-response identifier and writes `DischargeResponseBytes`: it puts the response into bit 7 of byte 0 (truncated to a byte), and zeros bytes 1..7. |
| `TestCanUtils.HeartbeatBytesLayout` | test/test_can_utils.c:42-50 | The payload word of the helper's bytes is its 32-bit word in the upper half, with zeros in the lower half. |
| `TestCanUtils.HeartbeatPayloadWord` | test/test_can_utils.c:29-51 | The payload word of the helper's message is the helper's word, state << 29 OR soc_percentage << 19 cut to its 32 bits, moved into bits 63..32; bits 31..0 are zero. |
| `TestCanUtils.DecodeHeartbeatPayloadWord` | src/can_utils.c:35-47 | Decoding that payload word gives the low 3 bits of state OR (soc_percentage >> 10) and the low 10 bits of soc_percentage. |
| `TestCanUtils.HeartbeatRoundTripAnyInput` | test/test_can_utils.c:29-51 | For any pair of 64-bit arguments, the decoder reads back the low 10 bits of soc_percentage, plus a state into which soc_percentage's bits 10..12 spill. |
| `TestCanUtils.HeartbeatRoundTrip` | test/test_can_utils.c:62-97 | A 3-bit state and a 10-bit soc_percentage, encoded by the helper, decode back exactly. |
| `TestCanUtils.DischargeResponseRoundTripAnyInput` | test/test_can_utils.c:105-114 | For any 64-bit argument, the decoder reads back the argument's lowest bit. |
| `TestCanUtils.DischargeResponseRoundTrip` | test/test_can_utils.c:122-150 | NOT_READY and READY, encoded by the helper, decode back unchanged. |
| `TestCanUtils.TestMakeBmsHeartbeatNoOneBitsLeftmostAndRightmostSide` | test/test_can_utils.c:62-74 | Encoding and decoding STANDBY with soc_percentage 1 gives back STANDBY and 1. |
| `TestCanUtils.TestMakeBmsHeartbeatOneBitsLeftmostAndRightmostSide` | test/test_can_utils.c:84-97 | Encoding and decoding ERROR with soc_percentage 0b1000000001 gives back both. |
| `TestCanUtils.TestMakeBmsDischargeResponseReady` | test/test_can_utils.c:122-132 | Encoding and decoding READY gives READY. |
| `TestCanUtils.TestMakeBmsDischargeResponseNotReady` | test/test_can_utils.c:140-150 | Encoding and decoding NOT_READY gives NOT_READY. |
| `VcuMain.StateOfCode` | src/main.c:144-168 | The case that a state code 0..5 selects is the named state whose code it is. |
| `VcuMain.StateCodeRoundTrip` | src/main.c:144-168 | Each named state's code selects that same state. |
| `VcuMain.HeartbeatReportOf` | src/main.c:144-172 | A decoded heartbeat is reported as its named state with its soc_percentage, or as an unexpected state whose code is above ERROR. |
| `VcuMain.DischargeReportOf` | src/main.c:178-185 | A decoded discharge response is reported as ready exactly when it is READY; a value above READY matches no case. |
| `VcuMain.ClassifyInput` | src/main.c:137-207 | NO_RX means no message, and a fault return is reported as an error with that return. After NO_CAN_ERROR the identifier decides the route, each in both directions. A heartbeat with a code up to ERROR is reported with its decoded state and soc_percentage; codes above ERROR give the unexpected-state report. A discharge response is ready exactly when bit 63 is set, and the missing default case is never reached. Pack status, cell temps and BMS errors each get their own report, and exactly the identifiers outside these five are unrecognized. |
| `VcuMain.HeartbeatAlwaysReported` | src/main.c:141-173 | Every received heartbeat is reported: as a named state, or as the unexpected-state line for code 6 or 7. |
| `VcuMain.TagByte` | src/main.c:104 | `tag << 7` stored in a uint8_t keeps only the tag's low bit, in bit 7, and leaves bits 6..0 clear. |
| `VcuMain.HeartbeatFrames` | src/main.c:101-126 | NONE sends nothing. STANDBY and DISCHARGE each send one one-byte VCU heartbeat. Its payload is `tag << 7`: bit 7 is set exactly when the state's tag is odd, and bits 6..0 are clear. |
| `VcuMain.HeartbeatFramesDistinguishStates` | src/main.c:101-126 | Two states send the same heartbeat frames only if they are the same state. |
| `VcuMain.KeyboardSelectsState` | src/main.c:217-240 | About `NextVcuState`, the key switch: 'v' followed by 's', 'd' or 'n' selects STANDBY, DISCHARGE or NONE from any state, and no other key sequence changes the state. |
| `VcuMain.KeyboardFrames` | src/main.c:241-248 | The keyboard sends at most one frame, and it sends one exactly when the first key read is a top-level 'd'. |
| `VcuMain.KeyboardFramesOnlyOnDischargeRequest` | src/main.c:241-248 | A frame is transmitted exactly for a top-level 'd', and then exactly one: a one-byte discharge request with ENTER_DISCHARGE in bit 7, that is `[0x80]`. A 'v' transmits nothing. |
| `VcuMain.Elapsed` | src/main.c:262 | The unsigned 32-bit difference is the forward distance from the last heartbeat to now, modulo 2^32. |
| `VcuMain.ElapsedAfterAdvance` | src/main.c:262 | When the counter advances by e from the last heartbeat, whether or not it wraps, the measured elapsed time is exactly e. |
| `VcuMain.IterateResetFlag` | src/main.c:292-304 | About `Iterate`, the loop body (reset, inputs, keyboard, outputs): after an iteration, a reset is pending exactly when that iteration saw one of these: a receive fault, a non-zero error status on receive, or a heartbeat that was due and sent with a fault. An earlier request has already been cleared. |
| `VcuMain.IterateFrames` | src/main.c:301-303 | An iteration appends at most two frames, the keyboard's first and then the heartbeat. The heartbeat carries the state this iteration's keys chose. |
| `VcuMain.QuietWithinPeriod` | src/main.c:259-266 | A run whose ticks all stay within 1000 ms of the last heartbeat sends no heartbeat, keeps that heartbeat's time, and appends only discharge requests. |
| `VcuMain.HeartbeatPeriod` | src/main.c:259-266 | The test is strictly more than 1000 ms. An iteration that sends a heartbeat restarts the period at its tick, and every later iteration within 1000 ms of that tick sends no heartbeat and keeps that time. |
| `VcuMain.NoneStaysSilent` | src/main.c:120-122 | From NONE, with no 'v' typed, a whole run stays in NONE and transmits only discharge requests. |
| `VcuMain.VcuController.constructor` | src/main.c:44-48 | The globals start as STANDBY, last heartbeat time 0, no reset pending and nothing transmitted. |
| `VcuMain.VcuController.ProcessCanReturn` | src/main.c:70-79 | Any return other than NO_CAN_ERROR requests a reset; an earlier request is kept. |
| `VcuMain.VcuController.ProcessCanErrors` | src/main.c:81-91 | A non-zero error status requests a reset; an earlier request is kept. |
| `VcuMain.VcuController.SendVcuHeartbeat` | src/main.c:96-127 | Appends the current state's heartbeat frames. A reset is requested only if something was sent and its transmit return or the error status shows a fault. |
| `VcuMain.VcuController.ReceiveInto` | src/main.c:137 | CAN_Receive's write into rx_msg: the identifier and the eight bytes of the delivered frame. |
| `VcuMain.VcuController.ProcessCanInputs` | src/main.c:132-209 | The report is the classification of the received message. A reset is requested after a receive fault or a non-zero error status. Nothing else changes. |
| `VcuMain.VcuController.ProcessKeyboardInput` | src/main.c:211-257 | The state becomes the keyboard's next state, and the outbox gains exactly the keyboard's frames. |
| `VcuMain.VcuController.ProcessCanOutputs` | src/main.c:259-266 | When more than 1000 ms (mod 2^32) have passed, the heartbeat is sent and the time is restarted at msTicks. Otherwise nothing changes. |
| `VcuMain.VcuController.MainLoopIteration` | src/main.c:292-305 | It reports whether a pending reset was performed, leaves the controller in the state that Iterate gives, and returns the classification of the received message. rx_msg holds the delivered frame after a NO_CAN_ERROR receive and is unchanged otherwise. |
| `VcuMain.VcuController.Run` | src/main.c:292-305 | A run of iterations leaves the controller in the state that IterateAll gives, and reports each received message's classification in order. rx_msg ends up holding the frame of the last NO_CAN_ERROR receive, or what it held before if there was none. |

## Left out

- Terminal output is not modelled: Board_Print, Board_Println and print_soc_percentage (src/main.c:63-68, src/board.c). Instead, each message classification is returned as a report value.
- The DEBUG block of CAN_MakeBMSHeartbeat (src/can_utils.c:25-33) is not modelled. It only prints.
- SysTick_Handler and the hardware bring-up in main (src/main.c:54-56, 270-291) are not modelled. They are clock, pin-mux, UART and CAN initialisation.
- The driver calls are not modelled. CAN_Receive, CAN_Transmit, CAN_GetErrorStatus, Chip_UART_Read, Chip_UART_ReadBlocking, CAN_ResetPeripheral and CAN_Init are foreign. What they return is a parameter of each operation, and transmitted frames go to the outbox. The echo of typed keys to the UART is also not modelled.
- Keys are modelled as `char` values, not as bytes read into the one-byte uart_rx_buf. The buffer's stale contents after an empty read are never inspected, so they are not modelled.
- The definition of CCAN_MSG_OBJ_T is in the driver header ccand_11xx.h, which is not part of this model. The message object is modelled by the fields the code uses: mode_id and the eight data bytes.
- The payloads of pack-status, cell-temperature and BMS-error messages are not modelled, because the firmware does not decode them.
- The Unity test runner `main` (test/test_can_utils.c:153-160) is not modelled. The four tests are modelled as methods whose postconditions are the asserted equalities.
- CanUtils.Construct64BitCanMessage: models the intended big-endian value. In C, `data[i] << (7 - i) * 8` promotes the byte to a 32-bit `int`. A shift by 32 to 56 is undefined behaviour, and a byte of 0x80 or more shifted by 24 overflows the signed int. The model does not say what any compiler makes of that.
- CanUtils.CanMakeBmsDischargeResponse: decodes the big-endian word of the data bytes. The C code reads the `data_64` member of the message object, which is declared in the driver header ccand_11xx.h. That header is not part of this model, so its byte order is unknown. The unit test puts the response in bit 7 of data byte 0, and the model follows that layout.
- The shift amounts of the C decoders and test helpers are written as `63 - X__start`, `63 - X__end` and `31 - X__end`. Their constants are in can_constants.h, which is not part of this model. The masks written in the decoders (src/can_utils.c:38-39, 52) fix the field positions, so the model uses those positions: state is bits 63..61, soc_percentage is bits 60..51, and the discharge response is bit 63.
- The numeric values of the other constants are also in can_constants.h and can.h. The message identifiers and the CAN driver returns are distinct datatype constructors. The BMS state codes take the values 0..5, in their declared order. The VCU heartbeat tags are STANDBY = 0 and DISCHARGE = 1, and the discharge request's ENTER_DISCHARGE is 1.
- CAN_Receive is foreign. The model assumes that it writes rx_msg only when it returns NO_CAN_ERROR. The postconditions of MainLoopIteration and Run that say rx_msg is unchanged otherwise depend on this assumption, and nothing else does.
- msTicks is volatile. process_can_outputs may read it twice, once for the comparison and once for the store. The model reads it once.
- The `default` branch of sendVCUHeartbeat (src/main.c:123-125) is not modelled. A VcuState is always one of its three values.
