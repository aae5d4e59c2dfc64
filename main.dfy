/** The VCU test controller: one global state machine that classifies
  * received CAN messages, lets the keyboard choose which VCU heartbeat it
  * sends, sends that heartbeat once per second and asks for a reset of the
  * CAN peripheral after any CAN error. The driver calls (CAN_Receive,
  * CAN_Transmit, CAN_GetErrorStatus, the UART reads, the tick counter) are
  * parameters: what they return is an input of each operation, and what is
  * transmitted is appended to an outbox. */
module VcuMain {
  import opened CanConstants
  import opened CanUtils

  /** enum VCU_STATE: which VCU heartbeat is sent, if any. */
  datatype VcuState = Standby | Discharge | None

  /** A frame handed to CAN_Transmit: its identifier and its data bytes. */
  datatype Frame = Frame(id: MessageId, data: seq<bv8>)

  /** What one non-blocking read of the one-byte UART buffer returns: no
    * byte (count == 0), or one key. */
  datatype KeyRead = NoKey | Key(c: char)

  /** The names of the six BMS state codes the firmware recognises. */
  datatype BmsState = BmsInit | BmsStandby | BmsCharge | BmsBalance | BmsDischarge | BmsError

  /** What process_can_inputs makes of one receive call: the line it prints,
    * as data. DischargeResponseUnlisted is the value that no case of the
    * discharge-response switch matches (the switch has no default). */
  datatype InputReport =
    | NoMessage
    | ReceiveError(ret: CanReturn)
    | HeartbeatReport(state: BmsState, socPercentage: bv16)
    | UnexpectedBmsState(code: bv8)
    | DischargeResponseReport(ready: bool)
    | DischargeResponseUnlisted(value: bv8)
    | PackStatusReport
    | CellTempsReport
    | BmsErrorsReport
    | UnrecognizedMessage

  const CONFIGURE_VCU_HEARTBEAT := 'v'
  const SEND_DISCHARGE_REQUEST := 'd'
  const HELP := 'h'
  const SEND_STANDBY_VCU_HEARTBEAT := 's'
  const SEND_DISCHARGE_VCU_HEARTBEAT := 'd'
  const DONT_SEND_VCU_HEARTBEAT := 'n'

  /** The heartbeat period of process_can_outputs, in milliseconds. */
  const ONE_SECOND: uint32 := 1000

  /** The state code each named BMS state stands for. */
  function StateCode(n: BmsState): bv8 {
    match n
    case BmsInit => BMS_STATE_INIT
    case BmsStandby => BMS_STATE_STANDBY
    case BmsCharge => BMS_STATE_CHARGE
    case BmsBalance => BMS_STATE_BALANCE
    case BmsDischarge => BMS_STATE_DISCHARGE
    case BmsError => BMS_STATE_ERROR
  }

  /** The case of the heartbeat-state switch that a code selects. */
  function StateOfCode(code: bv8): (n: BmsState)
    requires code <= BMS_STATE_ERROR
    ensures StateCode(n) == code
  {
    if code == BMS_STATE_INIT then BmsInit
    else if code == BMS_STATE_STANDBY then BmsStandby
    else if code == BMS_STATE_CHARGE then BmsCharge
    else if code == BMS_STATE_BALANCE then BmsBalance
    else if code == BMS_STATE_DISCHARGE then BmsDischarge
    else BmsError
  }

  /** Every named state is selected by its own code and by no other. */
  lemma StateCodeRoundTrip(n: BmsState)
    ensures StateCode(n) <= BMS_STATE_ERROR && StateOfCode(StateCode(n)) == n
  {
  }

  /** The line the heartbeat-state switch prints for a decoded heartbeat. */
  function HeartbeatReportOf(hb: BmsHeartbeat): (r: InputReport)
    ensures r.HeartbeatReport? || r.UnexpectedBmsState?
    ensures r.HeartbeatReport? ==> StateCode(r.state) == hb.state && r.socPercentage == hb.socPercentage
    ensures r.UnexpectedBmsState? ==> r.code == hb.state && hb.state > BMS_STATE_ERROR
  {
    if hb.state <= BMS_STATE_ERROR then HeartbeatReport(StateOfCode(hb.state), hb.socPercentage)
    else UnexpectedBmsState(hb.state)
  }

  /** The line the discharge-response switch prints for a decoded response. */
  function DischargeReportOf(response: BmsDischargeResponse): (r: InputReport)
    ensures r.DischargeResponseReport? || r.DischargeResponseUnlisted?
    ensures r.DischargeResponseReport? ==> (r.ready <==> response.dischargeResponse == DISCHARGE_RESPONSE_READY)
    ensures r.DischargeResponseUnlisted? <==> response.dischargeResponse > DISCHARGE_RESPONSE_READY
  {
    if response.dischargeResponse == DISCHARGE_RESPONSE_NOT_READY then DischargeResponseReport(false)
    else if response.dischargeResponse == DISCHARGE_RESPONSE_READY then DischargeResponseReport(true)
    else DischargeResponseUnlisted(response.dischargeResponse)
  }

  /** The classification of process_can_inputs: the receive return first,
    * then the identifier, then the decoded payload. w is the big-endian
    * word of the received data. */
  function ClassifyInput(ret: CanReturn, id: MessageId, w: bv64): (r: InputReport)
    ensures r == NoMessage <==> ret == NoRxCanMessage
    ensures r.ReceiveError? <==> ret.CanFault?
    ensures r.ReceiveError? ==> r.ret == ret
    ensures r.HeartbeatReport? <==>
      ret == NoCanError && id == BmsHeartbeatId && DecodeHeartbeat(w).state <= BMS_STATE_ERROR
    ensures r.HeartbeatReport? ==>
      ret == NoCanError && id == BmsHeartbeatId && StateCode(r.state) == DecodeHeartbeat(w).state
      && r.socPercentage == DecodeHeartbeat(w).socPercentage
    ensures r.UnexpectedBmsState? <==>
      ret == NoCanError && id == BmsHeartbeatId && DecodeHeartbeat(w).state > BMS_STATE_ERROR
    ensures r.DischargeResponseReport? <==> ret == NoCanError && id == BmsDischargeResponseId
    ensures r.DischargeResponseReport? ==> (r.ready <==> w & 0x8000000000000000 != 0)
    ensures !r.DischargeResponseUnlisted?
    ensures r == PackStatusReport <==> ret == NoCanError && id == BmsPackStatusId
    ensures r == CellTempsReport <==> ret == NoCanError && id == BmsCellTempsId
    ensures r == BmsErrorsReport <==> ret == NoCanError && id == BmsErrorsId
    ensures r == UnrecognizedMessage <==>
      ret == NoCanError && id != BmsHeartbeatId && id != BmsDischargeResponseId
      && id != BmsPackStatusId && id != BmsCellTempsId && id != BmsErrorsId
  {
    match ret
    case NoRxCanMessage => NoMessage
    case CanFault(_) => ReceiveError(ret)
    case NoCanError =>
      match id
      case BmsHeartbeatId => HeartbeatReportOf(DecodeHeartbeat(w))
      case BmsDischargeResponseId => DischargeReportOf(DecodeDischargeResponse(w))
      case BmsPackStatusId => PackStatusReport
      case BmsCellTempsId => CellTempsReport
      case BmsErrorsId => BmsErrorsReport
      case _ => UnrecognizedMessage
  }

  /** Every heartbeat is reported: a named state with its soc_percentage, or
    * the unexpected-state line for the two unnamed codes 6 and 7. */
  lemma {:induction false} HeartbeatAlwaysReported(w: bv64)
    ensures var r := ClassifyInput(NoCanError, BmsHeartbeatId, w);
      || (r.HeartbeatReport? && StateCode(r.state) == DecodeHeartbeat(w).state)
      || (r == UnexpectedBmsState(6) && DecodeHeartbeat(w).state == 6)
      || (r == UnexpectedBmsState(7) && DecodeHeartbeat(w).state == 7)
  {
    var hb := DecodeHeartbeat(w);
    if hb.state > BMS_STATE_ERROR {
      assert hb.state == 6 || hb.state == 7;
    }
  }

  /** `data = tag << 7` into a uint8_t: the tag's low bit lands in bit 7 and
    * every higher bit of the tag is cut off. */
  function TagByte(tag: nat): (b: bv8)
    ensures b & 0x7F == 0
    ensures b == 0 <==> tag % 2 == 0
  {
    ((tag * 128) % 256) as bv8
  }

  /** The heartbeat tag of a sending state. */
  function StateTag(s: VcuState): nat
    requires s != None
  {
    if s == Standby then VCU_HEARTBEAT_STATE_STANDBY else VCU_HEARTBEAT_STATE_DISCHARGE
  }

  /** The frames sendVCUHeartbeat transmits in a state: one one-byte VCU
    * heartbeat carrying the state's tag, or nothing in NONE. */
  function HeartbeatFrames(s: VcuState): (fs: seq<Frame>)
    ensures s == None <==> fs == []
    ensures |fs| <= 1
    ensures forall f | f in fs :: f.id == VcuHeartbeatId && |f.data| == 1 && f.data[0] & 0x7F == 0
    ensures s != None ==> (fs[0].data[0] == 0x80 <==> StateTag(s) % 2 == 1)
  {
    if s == None then [] else [Frame(VcuHeartbeatId, [TagByte(StateTag(s))])]
  }

  /** The two heartbeats a receiver can tell apart: STANDBY and DISCHARGE
    * send different frames. */
  lemma HeartbeatFramesDistinguishStates(s: VcuState, t: VcuState)
    ensures HeartbeatFrames(s) == HeartbeatFrames(t) <==> s == t
  {
    if s != t && s != None && t != None {
      assert HeartbeatFrames(s)[0].data[0] != HeartbeatFrames(t)[0].data[0];
    }
  }

  /** The key that, typed after 'v', selects a state. */
  function ConfigureKey(s: VcuState): char {
    match s
    case Standby => SEND_STANDBY_VCU_HEARTBEAT
    case Discharge => SEND_DISCHARGE_VCU_HEARTBEAT
    case None => DONT_SEND_VCU_HEARTBEAT
  }

  /** The VCU state after process_keyboard_input: only 'v' followed by one
    * of 's', 'd', 'n' changes it. second is the key of the blocking read
    * that follows a 'v'; it is not read otherwise. */
  function NextVcuState(s: VcuState, first: KeyRead, second: char): VcuState {
    if first == Key(CONFIGURE_VCU_HEARTBEAT) then
      if second == SEND_STANDBY_VCU_HEARTBEAT then Standby
      else if second == SEND_DISCHARGE_VCU_HEARTBEAT then Discharge
      else if second == DONT_SEND_VCU_HEARTBEAT then None
      else s
    else s
  }

  /** 'v' followed by a state's key selects that state from any state, and
    * the state changes only that way. */
  lemma KeyboardSelectsState(s: VcuState, t: VcuState, first: KeyRead, second: char)
    ensures NextVcuState(s, Key(CONFIGURE_VCU_HEARTBEAT), ConfigureKey(t)) == t
    ensures NextVcuState(s, first, second) != s ==>
      first == Key(CONFIGURE_VCU_HEARTBEAT) && second == ConfigureKey(NextVcuState(s, first, second))
  {
  }

  /** The frames process_keyboard_input transmits: one discharge request
    * after a top-level 'd', nothing otherwise. */
  function KeyboardFrames(first: KeyRead): (fs: seq<Frame>)
    ensures |fs| <= 1
    ensures fs != [] <==> first == Key(SEND_DISCHARGE_REQUEST)
  {
    if first == Key(SEND_DISCHARGE_REQUEST) then
      [Frame(VcuDischargeRequestId, [TagByte(VCU_DISCHARGE_REQUEST_ENTER_DISCHARGE)])]
    else []
  }

  /** Only a top-level 'd' transmits, and what it transmits is a one-byte
    * discharge request with ENTER_DISCHARGE in bit 7; the 'd' that follows
    * a 'v' changes the state and transmits nothing. */
  lemma KeyboardFramesOnlyOnDischargeRequest(first: KeyRead)
    ensures KeyboardFrames(first) != [] <==> first == Key(SEND_DISCHARGE_REQUEST)
    ensures forall f | f in KeyboardFrames(first) ::
      f.id == VcuDischargeRequestId && f.data == [0x80]
    ensures KeyboardFrames(Key(CONFIGURE_VCU_HEARTBEAT)) == []
    ensures KeyboardFrames(Key(SEND_DISCHARGE_REQUEST)) == [Frame(VcuDischargeRequestId, [0x80])]
  {
  }

  /** msTicks - last_bms_heartbeat_time in uint32_t arithmetic: the time
    * from last forward to now, across a wrap of the counter. */
  function Elapsed(now: uint32, last: uint32): (e: uint32)
    ensures (last as int + e as int) % 0x1_0000_0000 == now as int
  {
    ((now as int - last as int) % 0x1_0000_0000) as uint32
  }

  /** Elapsed measures forward distance exactly, whether or not the counter
    * wrapped in between. */
  lemma {:induction false} ElapsedAfterAdvance(last: uint32, e: uint32)
    ensures Elapsed(((last as int + e as int) % 0x1_0000_0000) as uint32, last) == e
  {
    var now := ((last as int + e as int) % 0x1_0000_0000) as uint32;
    if last as int + e as int < 0x1_0000_0000 {
      assert now as int == last as int + e as int;
    } else {
      assert now as int == last as int + e as int - 0x1_0000_0000;
    }
  }

  /** Whether process_can_outputs sends a heartbeat at time now. */
  predicate HeartbeatDue(now: uint32, last: uint32) {
    Elapsed(now, last) > ONE_SECOND
  }

  /** A receive or transmit return, or an error status, that makes the
    * firmware ask for a reset of the CAN peripheral. */
  predicate IsFault(ret: CanReturn, errorStatus: uint32) {
    ret != NoCanError || errorStatus != 0
  }

  /** The state of the controller that the main loop carries from one
    * iteration to the next. */
  datatype Snapshot = Snapshot(state: VcuState, lastBmsHeartbeatTime: uint32, reset: bool, outbox: seq<Frame>)

  /** What the drivers return during one iteration of the main loop:
    * CAN_Receive's return and the frame it delivers, the two results of
    * CAN_GetErrorStatus, the UART keys, msTicks, and CAN_Transmit's return
    * for the heartbeat. */
  datatype LoopInput = LoopInput(
    rxReturn: CanReturn, rxId: MessageId, rxData: seq<bv8>, rxErrorStatus: uint32,
    key: KeyRead, secondKey: char,
    msTicks: uint32, txReturn: CanReturn, txErrorStatus: uint32)

  /** One iteration of the main loop: clear a pending reset, then inputs,
    * keyboard and outputs, in that order. */
  function Iterate(s: Snapshot, input: LoopInput): Snapshot {
    var reset := input.rxReturn.CanFault? || input.rxErrorStatus != 0;
    var state := NextVcuState(s.state, input.key, input.secondKey);
    var outbox := s.outbox + KeyboardFrames(input.key);
    if HeartbeatDue(input.msTicks, s.lastBmsHeartbeatTime) then
      Snapshot(state, input.msTicks, reset || (state != None && IsFault(input.txReturn, input.txErrorStatus)),
               outbox + HeartbeatFrames(state))
    else Snapshot(state, s.lastBmsHeartbeatTime, reset, outbox)
  }

  /** The snapshot after a run of iterations. */
  function IterateAll(s: Snapshot, ins: seq<LoopInput>): Snapshot {
    if ins == [] then s else Iterate(IterateAll(s, ins[..|ins| - 1]), ins[|ins| - 1])
  }

  /** The reset flag after an iteration reflects that iteration's faults
    * only: the one pending from before has been cleared. */
  lemma IterateResetFlag(s: Snapshot, input: LoopInput)
    ensures Iterate(s, input).reset <==>
      input.rxReturn.CanFault? || input.rxErrorStatus != 0
      || (HeartbeatDue(input.msTicks, s.lastBmsHeartbeatTime)
          && NextVcuState(s.state, input.key, input.secondKey) != None && IsFault(input.txReturn, input.txErrorStatus))
  {
  }

  /** An iteration transmits at most a discharge request and then a
    * heartbeat, and the heartbeat already carries the state chosen by this
    * iteration's keys. */
  lemma IterateFrames(s: Snapshot, input: LoopInput)
    ensures var out := Iterate(s, input).outbox;
      && |s.outbox| <= |out| <= |s.outbox| + 2
      && out[..|s.outbox|] == s.outbox
      && out[|s.outbox|..] == KeyboardFrames(input.key)
         + (if HeartbeatDue(input.msTicks, s.lastBmsHeartbeatTime)
            then HeartbeatFrames(NextVcuState(s.state, input.key, input.secondKey)) else [])
  {
    var out := Iterate(s, input).outbox;
    assert |KeyboardFrames(input.key)| <= 1;
  }

  /** A run whose ticks all stay within 1000 ms of the last heartbeat
    * sends no heartbeat and keeps the time of the last one: every frame it
    * appends is a discharge request. */
  lemma {:induction false} QuietWithinPeriod(s: Snapshot, ins: seq<LoopInput>)
    requires forall i | 0 <= i < |ins| :: Elapsed(ins[i].msTicks, s.lastBmsHeartbeatTime) <= ONE_SECOND
    ensures IterateAll(s, ins).lastBmsHeartbeatTime == s.lastBmsHeartbeatTime
    ensures var out := IterateAll(s, ins).outbox;
      && |s.outbox| <= |out| && out[..|s.outbox|] == s.outbox
      && forall k | |s.outbox| <= k < |out| :: out[k].id == VcuDischargeRequestId
    decreases |ins|
  {
    if ins != [] {
      var prefix := ins[..|ins| - 1];
      QuietWithinPeriod(s, prefix);
      var p := IterateAll(s, prefix);
      assert !HeartbeatDue(ins[|ins| - 1].msTicks, p.lastBmsHeartbeatTime);
      var q := Iterate(p, ins[|ins| - 1]);
      assert q.outbox == p.outbox + KeyboardFrames(ins[|ins| - 1].key);
    }
  }

  /** The heartbeat period: the test is strictly more than 1000 ms, so an
    * iteration that sends a heartbeat restarts the period at its own tick,
    * and every later iteration whose tick is at most 1000 ms past that one
    * sends no heartbeat and leaves the restart time alone. */
  lemma {:induction false} HeartbeatPeriod(s: Snapshot, input: LoopInput, ins: seq<LoopInput>)
    requires HeartbeatDue(input.msTicks, s.lastBmsHeartbeatTime)
    requires forall i | 0 <= i < |ins| :: Elapsed(ins[i].msTicks, input.msTicks) <= ONE_SECOND
    ensures var s1 := Iterate(s, input);
      && s1.lastBmsHeartbeatTime == input.msTicks
      && IterateAll(s1, ins).lastBmsHeartbeatTime == input.msTicks
      && var out := IterateAll(s1, ins).outbox;
         |s1.outbox| <= |out| && out[..|s1.outbox|] == s1.outbox
         && forall k | |s1.outbox| <= k < |out| :: out[k].id == VcuDischargeRequestId
  {
    var s1 := Iterate(s, input);
    assert s1.lastBmsHeartbeatTime == input.msTicks;
    QuietWithinPeriod(s1, ins);
  }

  /** Where rx_msg's identifier and data come from after a run: the frame
    * of the last receive that returned NO_CAN_ERROR, or what it held
    * before if there was none. */
  function LastDelivered(id: MessageId, data: seq<bv8>, ins: seq<LoopInput>): (MessageId, seq<bv8>) {
    if ins == [] then (id, data)
    else if ins[|ins| - 1].rxReturn == NoCanError then (ins[|ins| - 1].rxId, ins[|ins| - 1].rxData)
    else LastDelivered(id, data, ins[..|ins| - 1])
  }

  /** In NONE no heartbeat is sent, and with no 'v' typed the controller
    * stays in NONE: a whole run transmits only discharge requests. */
  lemma {:induction false} NoneStaysSilent(s: Snapshot, ins: seq<LoopInput>)
    requires s.state == None
    requires forall i | 0 <= i < |ins| :: ins[i].key != Key(CONFIGURE_VCU_HEARTBEAT)
    ensures IterateAll(s, ins).state == None
    ensures var out := IterateAll(s, ins).outbox;
      && |s.outbox| <= |out| && out[..|s.outbox|] == s.outbox
      && forall k | |s.outbox| <= k < |out| :: out[k].id == VcuDischargeRequestId
    decreases |ins|
  {
    if ins != [] {
      var prefix := ins[..|ins| - 1];
      NoneStaysSilent(s, prefix);
      var p := IterateAll(s, prefix);
      var q := Iterate(p, ins[|ins| - 1]);
      assert q.outbox == p.outbox + KeyboardFrames(ins[|ins| - 1].key);
    }
  }

  /** The globals of main.c and the functions that update them. */
  class VcuController {
    var currentVcuState: VcuState
    var lastBmsHeartbeatTime: uint32
    var resetCanPeripheral: bool
    var outbox: seq<Frame>
    /** rx_msg: the message object CAN_Receive writes into. */
    const rxMsg: CanMsgObj

    predicate Valid()
      reads this, rxMsg
    {
      rxMsg.data.Length == 8
    }

    function Snap(): Snapshot
      reads this
    {
      Snapshot(currentVcuState, lastBmsHeartbeatTime, resetCanPeripheral, outbox)
    }

    /** The initial values of the globals. */
    constructor ()
      ensures Valid()
      ensures Snap() == Snapshot(Standby, 0, false, [])
      ensures fresh(rxMsg) && fresh(rxMsg.data)
    {
      currentVcuState := Standby;
      lastBmsHeartbeatTime := 0;
      resetCanPeripheral := false;
      outbox := [];
      rxMsg := new CanMsgObj();
    }

    /** process_can_return: any return other than NO_CAN_ERROR asks for a
      * reset; nothing clears the request. */
    method ProcessCanReturn(canReturn: CanReturn)
      modifies this`resetCanPeripheral
      ensures resetCanPeripheral == (old(resetCanPeripheral) || canReturn != NoCanError)
    {
      if canReturn != NoCanError {
        resetCanPeripheral := true;
      }
    }

    /** process_can_errors: a non-zero error status asks for a reset. */
    method ProcessCanErrors(canErrorStatus: uint32)
      modifies this`resetCanPeripheral
      ensures resetCanPeripheral == (old(resetCanPeripheral) || canErrorStatus != 0)
    {
      if canErrorStatus != 0 {
        resetCanPeripheral := true;
      }
    }

    /** sendVCUHeartbeat: transmit the current state's heartbeat and check
      * the transmit return and the error status; in NONE do nothing. */
    method SendVcuHeartbeat(canTransmitReturn: CanReturn, canErrorStatus: uint32)
      modifies this`outbox, this`resetCanPeripheral
      ensures outbox == old(outbox) + HeartbeatFrames(currentVcuState)
      ensures resetCanPeripheral ==
        (old(resetCanPeripheral) || (currentVcuState != None && IsFault(canTransmitReturn, canErrorStatus)))
    {
      match currentVcuState
      case Standby =>
        var data := TagByte(VCU_HEARTBEAT_STATE_STANDBY);
        outbox := outbox + [Frame(VcuHeartbeatId, [data])];
        ProcessCanReturn(canTransmitReturn);
        ProcessCanErrors(canErrorStatus);
      case Discharge =>
        var data := TagByte(VCU_HEARTBEAT_STATE_DISCHARGE);
        outbox := outbox + [Frame(VcuHeartbeatId, [data])];
        ProcessCanReturn(canTransmitReturn);
        ProcessCanErrors(canErrorStatus);
      case None =>
    }

    /** CAN_Receive's write into rx_msg, when it returns NO_CAN_ERROR: the
      * identifier and the eight data bytes of the received frame. */
    method ReceiveInto(id: MessageId, data: seq<bv8>)
      requires Valid() && |data| == 8
      modifies rxMsg, rxMsg.data
      ensures Valid() && rxMsg.modeId == id && rxMsg.data[..] == data
    {
      rxMsg.modeId := id;
      forall i | 0 <= i < 8 {
        rxMsg.data[i] := data[i];
      }
    }

    /** process_can_inputs, after CAN_Receive has returned ret (and, on
      * NO_CAN_ERROR, written rx_msg): classify the message, pass any other
      * return than NO_RX_CAN_MESSAGE to process_can_return, then check the
      * error status. Only the reset request can change. */
    method ProcessCanInputs(ret: CanReturn, canErrorStatus: uint32) returns (report: InputReport)
      requires Valid()
      modifies this`resetCanPeripheral
      ensures report == ClassifyInput(ret, rxMsg.modeId, BigEndianWord(rxMsg.data[..]))
      ensures resetCanPeripheral == (old(resetCanPeripheral) || ret.CanFault? || canErrorStatus != 0)
    {
      if ret == NoCanError {
        match rxMsg.modeId
        case BmsHeartbeatId =>
          var bmsHeartbeat := CanMakeBmsHeartbeat(rxMsg);
          report := HeartbeatReportOf(bmsHeartbeat);
        case BmsDischargeResponseId =>
          var bmsDischargeResponse := CanMakeBmsDischargeResponse(rxMsg);
          report := DischargeReportOf(bmsDischargeResponse);
        case BmsPackStatusId =>
          report := PackStatusReport;
        case BmsCellTempsId =>
          report := CellTempsReport;
        case BmsErrorsId =>
          report := BmsErrorsReport;
        case _ =>
          report := UnrecognizedMessage;
      } else if ret == NoRxCanMessage {
        report := NoMessage;
      } else {
        report := ReceiveError(ret);
        ProcessCanReturn(ret);
      }
      ProcessCanErrors(canErrorStatus);
    }

    /** process_keyboard_input: first is the non-blocking read, second the
      * blocking read that follows a 'v'. 'v' then 's', 'd' or 'n' sets the
      * state; 'd' transmits a discharge request whose transmit return is
      * not checked; 'h' and any other key change nothing. */
    method ProcessKeyboardInput(first: KeyRead, second: char)
      modifies this`currentVcuState, this`outbox
      ensures currentVcuState == NextVcuState(old(currentVcuState), first, second)
      ensures outbox == old(outbox) + KeyboardFrames(first)
    {
      if first.Key? {
        if first.c == CONFIGURE_VCU_HEARTBEAT {
          if second == SEND_STANDBY_VCU_HEARTBEAT {
            currentVcuState := Standby;
          } else if second == SEND_DISCHARGE_VCU_HEARTBEAT {
            currentVcuState := Discharge;
          } else if second == DONT_SEND_VCU_HEARTBEAT {
            currentVcuState := None;
          }
        } else if first.c == SEND_DISCHARGE_REQUEST {
          var data := TagByte(VCU_DISCHARGE_REQUEST_ENTER_DISCHARGE);
          outbox := outbox + [Frame(VcuDischargeRequestId, [data])];
        } else if first.c == HELP {
          // only prints the help line
        }
      }
    }

    /** process_can_outputs: msTicks is read once; when more than a second
      * has passed since the last heartbeat, send one and restart the
      * period. */
    method ProcessCanOutputs(msTicks: uint32, canTransmitReturn: CanReturn, canErrorStatus: uint32)
      modifies this`outbox, this`resetCanPeripheral, this`lastBmsHeartbeatTime
      ensures var due := HeartbeatDue(msTicks, old(lastBmsHeartbeatTime));
        && lastBmsHeartbeatTime == (if due then msTicks else old(lastBmsHeartbeatTime))
        && outbox == old(outbox) + (if due then HeartbeatFrames(currentVcuState) else [])
        && resetCanPeripheral == (old(resetCanPeripheral)
             || (due && currentVcuState != None && IsFault(canTransmitReturn, canErrorStatus)))
    {
      if Elapsed(msTicks, lastBmsHeartbeatTime) > ONE_SECOND {
        SendVcuHeartbeat(canTransmitReturn, canErrorStatus);
        lastBmsHeartbeatTime := msTicks;
      }
    }

    /** One iteration of the main loop; didReset says whether it reset the
      * CAN peripheral first. */
    method MainLoopIteration(input: LoopInput) returns (didReset: bool, report: InputReport)
      requires Valid() && |input.rxData| == 8
      modifies this`currentVcuState, this`lastBmsHeartbeatTime, this`resetCanPeripheral, this`outbox
      modifies rxMsg, rxMsg.data
      ensures Valid()
      ensures didReset == old(resetCanPeripheral)
      ensures Snap() == Iterate(old(Snap()), input)
      ensures report == ClassifyInput(input.rxReturn, input.rxId, BigEndianWord(input.rxData))
      ensures (rxMsg.modeId, rxMsg.data[..])
           == LastDelivered(old(rxMsg.modeId), old(rxMsg.data[..]), [input])
    {
      didReset := resetCanPeripheral;
      if resetCanPeripheral {
        resetCanPeripheral := false;
      }
      if input.rxReturn == NoCanError {
        ReceiveInto(input.rxId, input.rxData);
      }
      report := ProcessCanInputs(input.rxReturn, input.rxErrorStatus);
      ProcessKeyboardInput(input.key, input.secondKey);
      ProcessCanOutputs(input.msTicks, input.txReturn, input.txErrorStatus);
    }

    /** The main loop, run for as many iterations as there are inputs. */
    method Run(ins: seq<LoopInput>) returns (reports: seq<InputReport>)
      requires Valid()
      requires forall i | 0 <= i < |ins| :: |ins[i].rxData| == 8
      modifies this`currentVcuState, this`lastBmsHeartbeatTime, this`resetCanPeripheral, this`outbox
      modifies rxMsg, rxMsg.data
      ensures Valid()
      ensures Snap() == IterateAll(old(Snap()), ins)
      ensures |reports| == |ins|
      ensures forall i | 0 <= i < |ins| ::
        reports[i] == ClassifyInput(ins[i].rxReturn, ins[i].rxId, BigEndianWord(ins[i].rxData))
      ensures (rxMsg.modeId, rxMsg.data[..]) == LastDelivered(old(rxMsg.modeId), old(rxMsg.data[..]), ins)
    {
      reports := [];
      var i := 0;
      while i < |ins|
        invariant 0 <= i <= |ins|
        invariant Valid()
        invariant Snap() == IterateAll(old(Snap()), ins[..i])
        invariant |reports| == i
        invariant forall k | 0 <= k < i ::
          reports[k] == ClassifyInput(ins[k].rxReturn, ins[k].rxId, BigEndianWord(ins[k].rxData))
        invariant (rxMsg.modeId, rxMsg.data[..]) == LastDelivered(old(rxMsg.modeId), old(rxMsg.data[..]), ins[..i])
      {
        var didReset, report := MainLoopIteration(ins[i]);
        assert ins[..i + 1][..i] == ins[..i];
        reports := reports + [report];
        i := i + 1;
      }
      assert ins[..|ins|] == ins;
    }
  }
}
