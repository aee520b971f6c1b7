/**
 * The sender's wire encoder (`MidiEvent` in the Android app, Kotlin and Java
 * twins alike): the event record and its constructors, the 16-bit to 3x7-bit
 * split and its inverse, the 3-byte Control Change message builder, and the
 * fixed-order frame each event is laid out as.
 *
 * The source keeps the sequence counter in a process-wide static field; here
 * it is an explicit value that `ToMidiMessages` takes and returns.
 */
module MidiEvent {
  import opened Bits

  /** A byte as it travels on the wire and as the receiving computer reads it (unsigned). */
  type Byte = x: int | 0 <= x < 0x100

  /** A 7-bit value: a MIDI data byte, and the range of the sequence counter. */
  type Data7 = x: int | 0 <= x < 0x80

  // Controller numbers.
  const CC_X_MSB := 1
  const CC_X_MID := 2
  const CC_X_LSB := 3
  const CC_Y_MSB := 4
  const CC_Y_MID := 5
  const CC_Y_LSB := 6
  const CC_PRESSURE_MSB := 7
  const CC_PRESSURE_MID := 8
  const CC_PRESSURE_LSB := 9
  const CC_SEQUENCE := 10
  const CC_EVENT_TYPE := 20
  const CC_BUTTON_ID := 21
  const CC_BUTTON_STATE := 22
  const CC_DATA_COMPLETE := 30

  // Channels (0-indexed).
  const CHANNEL_DATA := 0
  const CHANNEL_CONTROL := 1

  /** Status byte of a Control Change message on channel 0 (MIDI 1.0, Channel Voice Messages). */
  const CONTROL_CHANGE := 0xB0

  /** The value carried by DataComplete, and by ButtonState for a pressed button. */
  const FULL_SCALE := 127

  datatype Kind = TypeMotion | TypeButton | TypeDisconnect

  /**
   * A `MidiEvent` object. Every variant carries every field, as in the source;
   * fields a constructor does not set keep their default 0.
   */
  datatype Event = Event(kind: Kind, x: Int16, y: Int16, pressure: Int16, button: Int8, buttonDown: Int8)

  /** `MidiEvent(type)`. */
  function NewEvent(kind: Kind): (e: Event)
    ensures e.kind == kind && e.x == 0 && e.y == 0 && e.pressure == 0
    ensures e.button == 0 && e.buttonDown == 0
  {
    Event(kind, 0, 0, 0, 0, 0)
  }

  /** `MidiEvent(type, x, y, pressure)`. */
  function NewMotionEvent(kind: Kind, x: Int16, y: Int16, pressure: Int16): (e: Event)
    ensures e.kind == kind && e.x == x && e.y == y && e.pressure == pressure
    ensures e.button == 0 && e.buttonDown == 0
  {
    NewEvent(kind).(x := x, y := y, pressure := pressure)
  }

  /**
   * `MidiEvent(type, x, y, pressure, button, buttonDown)`: the button id is
   * narrowed to a byte and the flag is stored as the byte 1 or 0.
   */
  function NewButtonEvent(kind: Kind, x: Int16, y: Int16, pressure: Int16, button: Int32, buttonDown: bool): (e: Event)
    ensures e.kind == kind && e.x == x && e.y == y && e.pressure == pressure
    ensures -0x80 <= button < 0x80 ==> e.button == button
    ensures e.buttonDown == 1 <==> buttonDown
    ensures e.buttonDown == 0 <==> !buttonDown
  {
    NewMotionEvent(kind, x, y, pressure).(button := ToInt8(button), buttonDown := if buttonDown then 1 else 0)
  }

  /** The three 7-bit fields a 16-bit value is spread over. */
  datatype Fields = Fields(msb: int, mid: int, lsb: int)

  /**
   * `encode16BitTo3x7Bit`: mask to 16 bits, then bits 15-9 go to `msb`,
   * bits 8-2 to `mid`, and bits 1-0, shifted left by 5, to `lsb`.
   */
  function Encode16BitTo3x7Bit(value: int): (r: Fields)
    ensures 0 <= r.msb < 0x80 && 0 <= r.mid < 0x80 && 0 <= r.lsb < 0x80
    ensures r.lsb % 0x20 == 0
  {
    var value16 := value % 0x1_0000;
    Fields((value16 / 0x200) % 0x80, (value16 / 4) % 0x80, (value16 * 0x20) % 0x80)
  }

  /**
   * `decode3x7BitTo16Bit`: `((msb and 0x7F) shl 9) or ((mid and 0x7F) shl 2)
   * or ((lsb and 0x7F) shr 5)`. The three operands occupy bits 9-15, 2-8 and
   * 0-1, so the ORs add.
   */
  function Decode3x7BitTo16Bit(msb: int, mid: int, lsb: int): (r: int)
    ensures 0 <= r < 0x1_0000
    ensures r == (msb % 0x80) * 0x200 + (mid % 0x80) * 4 + (lsb % 0x80) / 0x20
  {
    var hi := msb % 0x80;
    var md := mid % 0x80;
    var lo := (lsb % 0x80) / 0x20;
    assert Pow2(9) == 0x200 && Pow2(2) == 4;
    OrAdds(hi * 0x200, hi, md * 4, 9);
    OrAdds(hi * 0x200 + md * 4, hi * 0x80 + md, lo, 2);
    Or(Or(hi * 0x200, md * 4), lo)
  }

  /** A 3-byte MIDI message `[status, controller, value]`. */
  datatype Message = Message(status: Byte, controller: Byte, value: Byte) {
    function Bytes(): (b: seq<Byte>)
      ensures |b| == 3 && b[0] == status && b[1] == controller && b[2] == value
    {
      [status, controller, value]
    }
  }

  /**
   * `createControlChange`: status `0xB0 or (channel and 0x0F)`, then the
   * controller and the value each masked to 7 bits. The channel's low four
   * bits do not overlap 0xB0, so the status is written as their sum here and
   * `StatusIsBitwiseOr` proves it is the OR.
   */
  function CreateControlChange(channel: int, controller: int, value: int): (m: Message)
    ensures m.status == CONTROL_CHANGE + channel % 16
    ensures m.controller == controller % 0x80 && m.value == value % 0x80
  {
    Message(CONTROL_CHANGE + channel % 16, controller % 0x80, value % 0x80)
  }

  /** The status byte is the bitwise OR of Control Change and the channel's low nibble, a status in 0xB0..0xBF. */
  lemma StatusIsBitwiseOr(channel: int, controller: int, value: int)
    ensures var m := CreateControlChange(channel, controller, value);
      m.status == Or(CONTROL_CHANGE, channel % 16) && 0xB0 <= m.status < 0xC0
  {
    OrAdds(CONTROL_CHANGE, CONTROL_CHANGE / 16, channel % 16, 4);
  }

  /** One position in a frame: the channel and controller its message must carry. */
  datatype Slot = Slot(channel: int, controller: int)

  /** The layout of the nine coordinate and pressure messages, all on the data channel. */
  const COORDINATE_LAYOUT: seq<Slot> := [
    Slot(0, 1), Slot(0, 2), Slot(0, 3),
    Slot(0, 4), Slot(0, 5), Slot(0, 6),
    Slot(0, 7), Slot(0, 8), Slot(0, 9)
  ]

  /** The wire layout of a Motion frame, in sending order. */
  const MOTION_LAYOUT: seq<Slot> := [
    Slot(1, 20),
    Slot(0, 1), Slot(0, 2), Slot(0, 3),
    Slot(0, 4), Slot(0, 5), Slot(0, 6),
    Slot(0, 7), Slot(0, 8), Slot(0, 9),
    Slot(0, 10),
    Slot(1, 30)
  ]

  /** The wire layout of a Button frame, in sending order. */
  const BUTTON_LAYOUT: seq<Slot> := [
    Slot(1, 20),
    Slot(0, 1), Slot(0, 2), Slot(0, 3),
    Slot(0, 4), Slot(0, 5), Slot(0, 6),
    Slot(0, 7), Slot(0, 8), Slot(0, 9),
    Slot(1, 21), Slot(1, 22),
    Slot(0, 10),
    Slot(1, 30)
  ]

  /** `frame` has exactly the messages of `layout`, each a Control Change on the slot's channel and controller. */
  ghost predicate FollowsLayout(frame: seq<Message>, layout: seq<Slot>) {
    && |frame| == |layout|
    && forall i | 0 <= i < |frame| ::
         frame[i].status == CONTROL_CHANGE + layout[i].channel && frame[i].controller == layout[i].controller
  }

  /** The result of `toMidiMessages`: the frame (absent for Disconnect) and the counter afterwards. */
  datatype Conversion = Conversion(frame: Option<seq<Message>>, counter: Data7)

  /** The EventType message that opens every frame. */
  function FrameHeader(eventType: Data7): (h: seq<Message>)
    ensures FollowsLayout(h, [Slot(1, 20)]) && h[0].value == eventType
  {
    [CreateControlChange(CHANNEL_CONTROL, CC_EVENT_TYPE, eventType)]
  }

  /** The three data-channel messages of one value, on controllers `first`, `first + 1` and `first + 2`. */
  function FieldMessages(first: int, f: Fields): (ms: seq<Message>)
    ensures FollowsLayout(ms, [Slot(0, first % 0x80), Slot(0, (first + 1) % 0x80), Slot(0, (first + 2) % 0x80)])
  {
    [ CreateControlChange(CHANNEL_DATA, first, f.msb),
      CreateControlChange(CHANNEL_DATA, first + 1, f.mid),
      CreateControlChange(CHANNEL_DATA, first + 2, f.lsb) ]
  }

  /** The nine data-channel messages carrying x, y and pressure, most significant field first. */
  function CoordinateMessages(xs: Fields, ys: Fields, ps: Fields): (ms: seq<Message>)
    ensures FollowsLayout(ms, COORDINATE_LAYOUT)
  {
    var mx := FieldMessages(CC_X_MSB, xs);
    var my := FieldMessages(CC_Y_MSB, ys);
    var mp := FieldMessages(CC_PRESSURE_MSB, ps);
    FollowsLayoutAppend(mx, [Slot(0, 1), Slot(0, 2), Slot(0, 3)], my, [Slot(0, 4), Slot(0, 5), Slot(0, 6)]);
    FollowsLayoutAppend(mx + my, [Slot(0, 1), Slot(0, 2), Slot(0, 3), Slot(0, 4), Slot(0, 5), Slot(0, 6)],
                        mp, [Slot(0, 7), Slot(0, 8), Slot(0, 9)]);
    mx + my + mp
  }

  /** ButtonId (`button + 1`) and ButtonState (127 when the stored flag is 1, else 0). */
  function ButtonMessages(button: Int8, buttonDown: Int8): (ms: seq<Message>)
    ensures FollowsLayout(ms, [Slot(1, 21), Slot(1, 22)])
    ensures ms[0].value == (button + 1) % 0x80
    ensures ms[1].value == FULL_SCALE <==> buttonDown == 1
    ensures ms[1].value == 0 <==> buttonDown != 1
  {
    var mappedButtonId := button + 1;
    var buttonState := if buttonDown == 1 then FULL_SCALE else 0;
    [ CreateControlChange(CHANNEL_CONTROL, CC_BUTTON_ID, mappedButtonId),
      CreateControlChange(CHANNEL_CONTROL, CC_BUTTON_STATE, buttonState) ]
  }

  /** The Sequence message and the DataComplete(127) message that closes every frame. */
  function FrameTrailer(sequence: Data7): (t: seq<Message>)
    ensures FollowsLayout(t, [Slot(0, 10), Slot(1, 30)])
    ensures t[0].value == sequence && t[1].value == FULL_SCALE
  {
    [ CreateControlChange(CHANNEL_DATA, CC_SEQUENCE, sequence),
      CreateControlChange(CHANNEL_CONTROL, CC_DATA_COMPLETE, FULL_SCALE) ]
  }

  /**
   * `toMidiMessages`: no frame and no counter change for Disconnect;
   * otherwise the counter advances by one modulo 128 and the frame carries
   * the new value. A Button frame adds the mapped button id and state before
   * the sequence message.
   */
  function ToMidiMessages(e: Event, counter: Data7): (r: Conversion)
    ensures r.frame.None? <==> e.kind == TypeDisconnect
    ensures e.kind == TypeDisconnect ==> r.counter == counter
    ensures e.kind != TypeDisconnect ==> r.counter == (counter + 1) % 0x80
    ensures e.kind == TypeMotion ==> |r.frame.value| == 12
    ensures e.kind == TypeButton ==> |r.frame.value| == 14
  {
    if e.kind == TypeDisconnect then Conversion(None, counter)
    else
      var xs := Encode16BitTo3x7Bit(e.x);
      var ys := Encode16BitTo3x7Bit(e.y);
      var ps := Encode16BitTo3x7Bit(e.pressure);
      var next := (counter + 1) % 0x80;
      if e.kind == TypeMotion then
        Conversion(Some(FrameHeader(0) + CoordinateMessages(xs, ys, ps) + FrameTrailer(next)), next)
      else
        Conversion(Some(FrameHeader(1) + CoordinateMessages(xs, ys, ps)
                        + ButtonMessages(e.button, e.buttonDown) + FrameTrailer(next)), next)
  }

  /** Layout facts compose over concatenation. */
  lemma FollowsLayoutAppend(a: seq<Message>, la: seq<Slot>, b: seq<Message>, lb: seq<Slot>)
    requires FollowsLayout(a, la) && FollowsLayout(b, lb)
    ensures FollowsLayout(a + b, la + lb)
  {
    forall i | 0 <= i < |a + b|
      ensures (a + b)[i].status == CONTROL_CHANGE + (la + lb)[i].channel
      ensures (a + b)[i].controller == (la + lb)[i].controller
    {
      if i >= |a| {
        assert (a + b)[i] == b[i - |a|] && (la + lb)[i] == lb[i - |a|];
      }
    }
  }

  /**
   * A Motion frame is the 12 messages of `MOTION_LAYOUT`: EventType 0 first,
   * then x, y and pressure, the new counter value, and DataComplete 127 last.
   */
  lemma MotionFrameLayout(e: Event, counter: Data7)
    requires e.kind == TypeMotion
    ensures var r := ToMidiMessages(e, counter);
      && FollowsLayout(r.frame.value, MOTION_LAYOUT)
      && r.frame.value[0].value == 0
      && r.frame.value[10].value == r.counter
      && r.frame.value[11].value == FULL_SCALE
  {
    var r := ToMidiMessages(e, counter);
    var h := FrameHeader(0);
    var c := CoordinateMessages(Encode16BitTo3x7Bit(e.x), Encode16BitTo3x7Bit(e.y), Encode16BitTo3x7Bit(e.pressure));
    var t := FrameTrailer(r.counter);
    assert r.frame.value == h + c + t;
    FollowsLayoutAppend(h, [Slot(1, 20)], c, COORDINATE_LAYOUT);
    FollowsLayoutAppend(h + c, [Slot(1, 20)] + COORDINATE_LAYOUT, t, [Slot(0, 10), Slot(1, 30)]);
    assert [Slot(1, 20)] + COORDINATE_LAYOUT + [Slot(0, 10), Slot(1, 30)] == MOTION_LAYOUT;
    assert r.frame.value[0] == h[0];
    assert r.frame.value[10] == t[0] && r.frame.value[11] == t[1];
  }

  /**
   * A Button frame is the 14 messages of `BUTTON_LAYOUT`: EventType 1, the
   * nine data fields, ButtonId `button + 1` and ButtonState (127 exactly when
   * the stored flag is 1, else 0), the new counter value, DataComplete 127.
   */
  lemma ButtonFrameLayout(e: Event, counter: Data7)
    requires e.kind == TypeButton
    ensures var r := ToMidiMessages(e, counter);
      && FollowsLayout(r.frame.value, BUTTON_LAYOUT)
      && r.frame.value[0].value == 1
      && r.frame.value[10].value == (e.button + 1) % 0x80
      && r.frame.value[11].value == (if e.buttonDown == 1 then FULL_SCALE else 0)
      && r.frame.value[12].value == r.counter
      && r.frame.value[13].value == FULL_SCALE
  {
    var r := ToMidiMessages(e, counter);
    var h := FrameHeader(1);
    var c := CoordinateMessages(Encode16BitTo3x7Bit(e.x), Encode16BitTo3x7Bit(e.y), Encode16BitTo3x7Bit(e.pressure));
    var b := ButtonMessages(e.button, e.buttonDown);
    var t := FrameTrailer(r.counter);
    assert r.frame.value == h + c + b + t;
    FollowsLayoutAppend(h, [Slot(1, 20)], c, COORDINATE_LAYOUT);
    FollowsLayoutAppend(h + c, [Slot(1, 20)] + COORDINATE_LAYOUT, b, [Slot(1, 21), Slot(1, 22)]);
    FollowsLayoutAppend(h + c + b, [Slot(1, 20)] + COORDINATE_LAYOUT + [Slot(1, 21), Slot(1, 22)],
                        t, [Slot(0, 10), Slot(1, 30)]);
    assert [Slot(1, 20)] + COORDINATE_LAYOUT + [Slot(1, 21), Slot(1, 22)] + [Slot(0, 10), Slot(1, 30)] == BUTTON_LAYOUT;
    assert r.frame.value[0] == h[0];
    assert r.frame.value[10] == b[0] && r.frame.value[11] == b[1];
    assert r.frame.value[12] == t[0] && r.frame.value[13] == t[1];
  }

  /** For every input, decoding the three encoded fields gives back the input's low 16 bits. */
  lemma EncodeDecodeRoundTrip(value: int)
    ensures var f := Encode16BitTo3x7Bit(value);
      Decode3x7BitTo16Bit(f.msb, f.mid, f.lsb) == value % 0x1_0000
  {
    var v := value % 0x1_0000;
    var h, m, l := Split16(v);
    EncodeLow16(value);
    EncodeOfFields(h, m, l);
    DecodeOfFields(h, m, l);
  }

  /** On 16-bit values the split is lossless: decoding returns exactly the input. */
  lemma EncodeDecodeIdentity(value: int)
    requires 0 <= value < 0x1_0000
    ensures var f := Encode16BitTo3x7Bit(value);
      Decode3x7BitTo16Bit(f.msb, f.mid, f.lsb) == value
  {
    DivModUnique(value, 0x1_0000, 0, value);
    EncodeDecodeRoundTrip(value);
  }

  /** The encoder only looks at the low 16 bits of its input. */
  lemma EncodeLow16(value: int)
    ensures Encode16BitTo3x7Bit(value) == Encode16BitTo3x7Bit(value % 0x1_0000)
  {
    var v := value % 0x1_0000;
    DivModUnique(v, 0x1_0000, 0, v);
  }

  /** A 16-bit value is its bits 15-9, 8-2 and 1-0 weighted by 0x200, 4 and 1. */
  lemma Split16(v: int) returns (h: int, m: int, l: int)
    requires 0 <= v < 0x1_0000
    ensures 0 <= h < 0x80 && 0 <= m < 0x80 && 0 <= l < 4
    ensures v == h * 0x200 + m * 4 + l
  {
    var q := v / 4;
    h, m, l := q / 0x80, q % 0x80, v % 4;
  }

  /**
   * The other direction: fields in the encoder's range (7-bit `msb` and
   * `mid`, `lsb` using only bits 5-6) are reproduced by re-encoding their
   * decoded value.
   */
  lemma {:induction false} DecodeEncodeRoundTrip(msb: int, mid: int, lsb: int)
    requires 0 <= msb < 0x80 && 0 <= mid < 0x80 && 0 <= lsb < 0x80 && lsb % 0x20 == 0
    ensures Encode16BitTo3x7Bit(Decode3x7BitTo16Bit(msb, mid, lsb)) == Fields(msb, mid, lsb)
  {
    var l := lsb / 0x20;
    DivModUnique(lsb, 0x20, l, 0);
    DecodeOfFields(msb, mid, l);
    EncodeOfFields(msb, mid, l);
  }

  /** In-range fields decode to the value they stand for, with no masking taking effect. */
  lemma DecodeOfFields(msb: int, mid: int, l: int)
    requires 0 <= msb < 0x80 && 0 <= mid < 0x80 && 0 <= l < 4
    ensures Decode3x7BitTo16Bit(msb, mid, 0x20 * l) == msb * 0x200 + mid * 4 + l
  {
    DivModUnique(msb, 0x80, 0, msb);
    DivModUnique(mid, 0x80, 0, mid);
    DivModUnique(0x20 * l, 0x80, 0, 0x20 * l);
    DivModUnique(0x20 * l, 0x20, l, 0);
  }

  /** Encoding the value that in-range fields stand for gives those fields back. */
  lemma EncodeOfFields(msb: int, mid: int, l: int)
    requires 0 <= msb < 0x80 && 0 <= mid < 0x80 && 0 <= l < 4
    ensures Encode16BitTo3x7Bit(msb * 0x200 + mid * 4 + l) == Fields(msb, mid, 0x20 * l)
  {
    var v := msb * 0x200 + mid * 4 + l;
    DivModUnique(v, 0x1_0000, 0, v);
    DivModUnique(v, 0x200, msb, mid * 4 + l);
    DivModUnique(v, 4, msb * 0x80 + mid, l);
    DivModUnique(msb * 0x80 + mid, 0x80, msb, mid);
    DivModUnique(v * 0x20, 0x80, msb * 0x80 + mid, 0x20 * l);
  }
}
