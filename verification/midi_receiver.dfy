/**
 * The computer-side frame reassembler (`MidiReceiver` in the Python client):
 * incoming 3-byte messages are routed by channel and controller into buffer
 * slots, and a DataComplete(127) turns the buffered slots into one decoded
 * report, after checking the sequence number for a gap.
 *
 * rtmidi port handling and the console output are not modelled; the loss
 * warning is a boolean output of the step, and the registered callback is a
 * flag saying whether reports are delivered.
 */
module MidiReceiver {
  import opened Bits
  import opened MidiEvent

  /** What the callback receives: `TouchData` or `ButtonData`. */
  datatype Report =
    | Touch(x: int, y: int, pressure: int, sequence: int)
    | ButtonPress(buttonId: int, down: bool, x: int, y: int, pressure: int, sequence: int)

  /** The receiver's buffer slots, the last sequence number seen, and whether a callback is set. */
  datatype Receiver = Receiver(
    xMsb: int, xMid: int, xLsb: int,
    yMsb: int, yMid: int, yLsb: int,
    pMsb: int, pMid: int, pLsb: int,
    sequence: int,
    eventType: int, buttonId: int, buttonState: int,
    lastSequence: int,
    hasCallback: bool)
  {
    /** The data-channel slot written by `controller` (1..10), or 0 for any other controller. */
    function DataSlot(controller: int): int {
      match controller
      case 1 => xMsb case 2 => xMid case 3 => xLsb
      case 4 => yMsb case 5 => yMid case 6 => yLsb
      case 7 => pMsb case 8 => pMid case 9 => pLsb
      case 10 => sequence
      case _ => 0
    }

    /** The three control-channel slots are equal in `this` and `other`. */
    predicate SameControl(other: Receiver) {
      eventType == other.eventType && buttonId == other.buttonId && buttonState == other.buttonState
    }
  }

  /** A fresh receiver: every slot 0, no sequence seen yet. */
  function NewReceiver(hasCallback: bool): (rx: Receiver)
    ensures rx.lastSequence == -1 && rx.hasCallback == hasCallback
    ensures forall c | 1 <= c <= 10 :: rx.DataSlot(c) == 0
    ensures rx.eventType == 0 && rx.buttonId == 0 && rx.buttonState == 0
  {
    Receiver(0, 0, 0, 0, 0, 0, 0, 0, 0, 0, 0, 0, 0, -1, hasCallback)
  }

  /** The outcome of handling one message: the new state, whether a loss warning was printed, and the delivered report. */
  datatype Step = Step(rx: Receiver, lossWarning: bool, report: Option<Report>)

  /** A step that only replaces the state. */
  function Quiet(rx: Receiver): Step {
    Step(rx, false, None)
  }

  /**
   * `decode_16bit`: the same three masked, shifted and OR-ed fields as the
   * sender's decoder, on Python's unbounded integers.
   */
  function Decode16(msb: int, mid: int, lsb: int): (r: int)
    ensures r == Decode3x7BitTo16Bit(msb, mid, lsb)
    ensures 0 <= r < 0x1_0000
  {
    var hi := msb % 0x80;
    var md := mid % 0x80;
    var lo := (lsb % 0x80) / 0x20;
    assert Pow2(9) == 0x200 && Pow2(2) == 4;
    OrAdds(hi * 0x200, hi, md * 4, 9);
    OrAdds(hi * 0x200 + md * 4, hi * 0x80 + md, lo, 2);
    Or(Or(hi * 0x200, md * 4), lo)
  }

  /** `parse_data_message`: controller 1..10 overwrites its own slot; any other controller is ignored. */
  function ParseDataMessage(rx: Receiver, controller: int, value: int): (r: Receiver)
    ensures forall c | 1 <= c <= 10 :: r.DataSlot(c) == (if c == controller then value else rx.DataSlot(c))
    ensures r.SameControl(rx) && r.lastSequence == rx.lastSequence && r.hasCallback == rx.hasCallback
    ensures !(1 <= controller <= 10) ==> r == rx
  {
    match controller
    case 1 => rx.(xMsb := value)
    case 2 => rx.(xMid := value)
    case 3 => rx.(xLsb := value)
    case 4 => rx.(yMsb := value)
    case 5 => rx.(yMid := value)
    case 6 => rx.(yLsb := value)
    case 7 => rx.(pMsb := value)
    case 8 => rx.(pMid := value)
    case 9 => rx.(pLsb := value)
    case 10 => rx.(sequence := value)
    case _ => rx
  }

  /**
   * `process_complete_event`: warn when a sequence number was seen before and
   * the buffered one is not its successor modulo 128; always remember the
   * buffered one; decode the three values; report a touch for event type 0 and
   * a button for anything else, with the wire id shifted back down by one.
   */
  function ProcessCompleteEvent(rx: Receiver): (s: Step)
    ensures s.lossWarning <==> rx.lastSequence != -1 && rx.sequence != (rx.lastSequence + 1) % 0x80
    ensures s.rx == rx.(lastSequence := rx.sequence)
    ensures s.report.Some? <==> rx.hasCallback
    ensures s.report.Some? ==> s.report.value.sequence == rx.sequence
    ensures s.report.Some? ==> (s.report.value.Touch? <==> rx.eventType == 0)
    ensures s.report.Some? && s.report.value.ButtonPress? ==>
      s.report.value.buttonId == rx.buttonId - 1 && (s.report.value.down <==> rx.buttonState == FULL_SCALE)
    ensures s.report.Some? ==>
      && s.report.value.x == Decode3x7BitTo16Bit(rx.xMsb, rx.xMid, rx.xLsb)
      && s.report.value.y == Decode3x7BitTo16Bit(rx.yMsb, rx.yMid, rx.yLsb)
      && s.report.value.pressure == Decode3x7BitTo16Bit(rx.pMsb, rx.pMid, rx.pLsb)
  {
    var warn := rx.lastSequence != -1 && rx.sequence != (rx.lastSequence + 1) % 0x80;
    var x := Decode16(rx.xMsb, rx.xMid, rx.xLsb);
    var y := Decode16(rx.yMsb, rx.yMid, rx.yLsb);
    var pressure := Decode16(rx.pMsb, rx.pMid, rx.pLsb);
    var report :=
      if !rx.hasCallback then None
      else if rx.eventType == 0 then Some(Touch(x, y, pressure, rx.sequence))
      else Some(ButtonPress(rx.buttonId - 1, rx.buttonState == FULL_SCALE, x, y, pressure, rx.sequence));
    Step(rx.(lastSequence := rx.sequence), warn, report)
  }

  /**
   * `parse_control_message`: controllers 20, 21 and 22 fill their slots,
   * controller 30 with value 127 completes the frame, and anything else,
   * including controller 30 with another value, is ignored.
   */
  function ParseControlMessage(rx: Receiver, controller: int, value: int): (s: Step)
    ensures controller == CC_EVENT_TYPE ==> s == Quiet(rx.(eventType := value))
    ensures controller == CC_BUTTON_ID ==> s == Quiet(rx.(buttonId := value))
    ensures controller == CC_BUTTON_STATE ==> s == Quiet(rx.(buttonState := value))
    ensures controller == CC_DATA_COMPLETE && value == FULL_SCALE ==> s == ProcessCompleteEvent(rx)
    ensures controller !in {CC_EVENT_TYPE, CC_BUTTON_ID, CC_BUTTON_STATE, CC_DATA_COMPLETE} ==> s == Quiet(rx)
    ensures controller == CC_DATA_COMPLETE && value != FULL_SCALE ==> s == Quiet(rx)
  {
    if controller == CC_EVENT_TYPE then Quiet(rx.(eventType := value))
    else if controller == CC_BUTTON_ID then Quiet(rx.(buttonId := value))
    else if controller == CC_BUTTON_STATE then Quiet(rx.(buttonState := value))
    else if controller == CC_DATA_COMPLETE then
      if value == FULL_SCALE then ProcessCompleteEvent(rx) else Quiet(rx)
    else Quiet(rx)
  }

  /** `status & 0xF0 == 0xB0` for a wire byte: the status bytes 0xB0..0xBF, one per channel. */
  function IsControlChange(status: Byte): (cc: bool)
    ensures cc <==> 0xB0 <= status < 0xC0
  {
    (status / 16) * 16 == CONTROL_CHANGE
  }

  /**
   * `on_midi_message`: a message shorter than three bytes or with a status
   * other than Control Change is dropped; channel 0 goes to the data slots,
   * channel 1 to the control slots, and every other channel is dropped.
   */
  function OnMidiMessage(rx: Receiver, message: seq<Byte>): (s: Step)
    ensures |message| < 3 ==> s == Quiet(rx)
    ensures |message| >= 3 && !(0xB0 <= message[0] < 0xC0) ==> s == Quiet(rx)
    ensures |message| >= 3 && message[0] == 0xB0 ==> s == Quiet(ParseDataMessage(rx, message[1], message[2]))
    ensures |message| >= 3 && message[0] == 0xB1 ==> s == ParseControlMessage(rx, message[1], message[2])
    ensures |message| >= 3 && 0xB2 <= message[0] < 0xC0 ==> s == Quiet(rx)
    ensures s.lossWarning || s.report.Some? || s.rx.lastSequence != rx.lastSequence ==>
      |message| >= 3 && message[0] == 0xB1 && message[1] == CC_DATA_COMPLETE && message[2] == FULL_SCALE
    ensures s.rx.hasCallback == rx.hasCallback
  {
    if |message| < 3 then Quiet(rx)
    else
      var status := message[0];
      var controller := message[1];
      var value := message[2];
      if !IsControlChange(status) then Quiet(rx)
      else
        var channel := status % 16;
        if channel == CHANNEL_DATA then Quiet(ParseDataMessage(rx, controller, value))
        else if channel == CHANNEL_CONTROL then ParseControlMessage(rx, controller, value)
        else Quiet(rx)
  }

  /**
   * The receiver's decoder inverts the sender's 16-bit split: decoding the
   * three encoded fields gives the value's low 16 bits.
   */
  lemma Decode16InvertsEncoder(value: int)
    ensures var f := Encode16BitTo3x7Bit(value);
      Decode16(f.msb, f.mid, f.lsb) == value % 0x1_0000
  {
    EncodeDecodeRoundTrip(value);
  }
}
