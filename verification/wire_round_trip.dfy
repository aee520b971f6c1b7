/**
 * The sender's encoder and the receiver's reassembler, composed: what the
 * receiver reports after reading the frames `toMidiMessages` produced.
 */
module WireRoundTrip {
  import opened Bits
  import opened MidiEvent
  import opened MidiReceiver

  /** The accumulated effect of feeding messages to a receiver: its final state, the reports delivered and the warnings printed. */
  datatype Feed = Feed(rx: Receiver, reports: seq<Report>, warnings: nat)

  /** The delivered report of one step, as a sequence of zero or one element. */
  function Delivered(s: Step): (rs: seq<Report>)
    ensures |rs| <= 1 && (rs == [] <==> s.report.None?)
  {
    if s.report.Some? then [s.report.value] else []
  }

  /** Hand each message's three bytes to `on_midi_message`, in order. */
  function FeedMessages(rx: Receiver, messages: seq<Message>): (f: Feed)
    ensures |f.reports| <= |messages| && f.warnings <= |messages|
    ensures f.rx.hasCallback == rx.hasCallback
    decreases |messages|
  {
    if messages == [] then Feed(rx, [], 0)
    else
      var s := OnMidiMessage(rx, messages[0].Bytes());
      var rest := FeedMessages(s.rx, messages[1..]);
      Feed(rest.rx, Delivered(s) + rest.reports, (if s.lossWarning then 1 else 0) + rest.warnings)
  }

  /** Feeding a message and then the rest: one `on_midi_message` step, then the rest from the state it left. */
  lemma FeedCons(rx: Receiver, m: Message, rest: seq<Message>)
    ensures var s := OnMidiMessage(rx, m.Bytes());
      var f := FeedMessages(s.rx, rest);
      FeedMessages(rx, [m] + rest) == Feed(f.rx, Delivered(s) + f.reports, (if s.lossWarning then 1 else 0) + f.warnings)
  {
    assert ([m] + rest)[0] == m && ([m] + rest)[1..] == rest;
  }

  /** Feeding `a + b` is feeding `a`, then feeding `b` to the receiver `a` left behind. */
  lemma {:induction false} FeedAppend(rx: Receiver, a: seq<Message>, b: seq<Message>)
    ensures var fa := FeedMessages(rx, a);
      var fb := FeedMessages(fa.rx, b);
      FeedMessages(rx, a + b) == Feed(fb.rx, fa.reports + fb.reports, fa.warnings + fb.warnings)
    decreases |a|
  {
    if a == [] {
      assert a + b == b;
    } else {
      var s := OnMidiMessage(rx, a[0].Bytes());
      assert a == [a[0]] + a[1..];
      assert a + b == [a[0]] + (a[1..] + b);
      FeedCons(rx, a[0], a[1..]);
      FeedCons(rx, a[0], a[1..] + b);
      FeedAppend(s.rx, a[1..], b);
      var fa := FeedMessages(s.rx, a[1..]);
      AppendAssoc(Delivered(s), fa.reports, FeedMessages(fa.rx, b).reports);
    }
  }

  /** Two quiet stretches in a row make one quiet stretch. */
  lemma FeedQuietAppend(rx: Receiver, a: seq<Message>, mid: Receiver, b: seq<Message>, last: Receiver)
    requires FeedMessages(rx, a) == Feed(mid, [], 0) && FeedMessages(mid, b) == Feed(last, [], 0)
    ensures FeedMessages(rx, a + b) == Feed(last, [], 0)
  {
    FeedAppend(rx, a, b);
  }

  /** Feeding one message that only changes the state. */
  lemma FeedQuietMessage(rx: Receiver, m: Message, rest: seq<Message>)
    requires OnMidiMessage(rx, m.Bytes()) == Quiet(OnMidiMessage(rx, m.Bytes()).rx)
    ensures FeedMessages(rx, [m] + rest) == FeedMessages(OnMidiMessage(rx, m.Bytes()).rx, rest)
  {
    assert ([m] + rest)[0] == m && ([m] + rest)[1..] == rest;
  }

  /** The EventType message fills the event type slot and nothing else. */
  lemma FeedHeader(rx: Receiver, eventType: Data7)
    ensures FeedMessages(rx, FrameHeader(eventType)) == Feed(rx.(eventType := eventType), [], 0)
  {
    var h := FrameHeader(eventType);
    assert h[0].Bytes() == [0xB1, CC_EVENT_TYPE, eventType];
    FeedQuietMessage(rx, h[0], []);
    assert h == [h[0]] + [];
  }

  /** The receiver state after the nine coordinate messages: the nine data slots hold the fields. */
  function WithCoordinates(rx: Receiver, xs: Fields, ys: Fields, ps: Fields): Receiver {
    rx.(xMsb := xs.msb % 0x80, xMid := xs.mid % 0x80, xLsb := xs.lsb % 0x80,
        yMsb := ys.msb % 0x80, yMid := ys.mid % 0x80, yLsb := ys.lsb % 0x80,
        pMsb := ps.msb % 0x80, pMid := ps.mid % 0x80, pLsb := ps.lsb % 0x80)
  }

  /** One data-channel message overwrites its slot and reports nothing. */
  lemma FeedDataMessage(rx: Receiver, controller: int, value: int, rest: seq<Message>)
    requires 1 <= controller <= 10
    ensures var m := CreateControlChange(CHANNEL_DATA, controller, value);
      FeedMessages(rx, [m] + rest) == FeedMessages(ParseDataMessage(rx, controller, value % 0x80), rest)
  {
    var m := CreateControlChange(CHANNEL_DATA, controller, value);
    assert m.Bytes() == [0xB0, controller, value % 0x80];
    FeedQuietMessage(rx, m, rest);
  }

  /** The receiver state after the three messages of the value whose most significant field goes to controller `first`. */
  function WithField(rx: Receiver, first: int, f: Fields): Receiver
    requires first == CC_X_MSB || first == CC_Y_MSB || first == CC_PRESSURE_MSB
  {
    if first == CC_X_MSB then rx.(xMsb := f.msb % 0x80, xMid := f.mid % 0x80, xLsb := f.lsb % 0x80)
    else if first == CC_Y_MSB then rx.(yMsb := f.msb % 0x80, yMid := f.mid % 0x80, yLsb := f.lsb % 0x80)
    else rx.(pMsb := f.msb % 0x80, pMid := f.mid % 0x80, pLsb := f.lsb % 0x80)
  }

  /** The three messages of one value fill its three slots and report nothing. */
  lemma FeedField(rx: Receiver, first: int, f: Fields)
    requires first == CC_X_MSB || first == CC_Y_MSB || first == CC_PRESSURE_MSB
    ensures FeedMessages(rx, FieldMessages(first, f)) == Feed(WithField(rx, first, f), [], 0)
  {
    var m0 := CreateControlChange(CHANNEL_DATA, first, f.msb);
    var m1 := CreateControlChange(CHANNEL_DATA, first + 1, f.mid);
    var m2 := CreateControlChange(CHANNEL_DATA, first + 2, f.lsb);
    var r1 := ParseDataMessage(rx, first, f.msb % 0x80);
    var r2 := ParseDataMessage(r1, first + 1, f.mid % 0x80);
    assert FieldMessages(first, f) == [m0] + ([m1] + ([m2] + []));
    FeedDataMessage(rx, first, f.msb, [m1] + ([m2] + []));
    FeedDataMessage(r1, first + 1, f.mid, [m2] + []);
    FeedDataMessage(r2, first + 2, f.lsb, []);
    ParseField(rx, first, f);
  }

  /** Parsing the three data messages of one value in order gives the slot update `WithField` describes. */
  lemma ParseField(rx: Receiver, first: int, f: Fields)
    requires first == CC_X_MSB || first == CC_Y_MSB || first == CC_PRESSURE_MSB
    ensures ParseDataMessage(ParseDataMessage(ParseDataMessage(rx, first, f.msb % 0x80), first + 1, f.mid % 0x80), first + 2, f.lsb % 0x80)
      == WithField(rx, first, f)
  {
  }

  /** The nine coordinate messages fill the nine coordinate slots and report nothing. */
  lemma FeedCoordinates(rx: Receiver, xs: Fields, ys: Fields, ps: Fields)
    ensures FeedMessages(rx, CoordinateMessages(xs, ys, ps)) == Feed(WithCoordinates(rx, xs, ys, ps), [], 0)
  {
    var mx := FieldMessages(CC_X_MSB, xs);
    var my := FieldMessages(CC_Y_MSB, ys);
    var mp := FieldMessages(CC_PRESSURE_MSB, ps);
    assert CoordinateMessages(xs, ys, ps) == mx + my + mp;
    var r1 := WithField(rx, CC_X_MSB, xs);
    var r2 := WithField(r1, CC_Y_MSB, ys);
    assert WithField(r2, CC_PRESSURE_MSB, ps) == WithCoordinates(rx, xs, ys, ps);
    FeedField(rx, CC_X_MSB, xs);
    FeedField(r1, CC_Y_MSB, ys);
    FeedField(r2, CC_PRESSURE_MSB, ps);
    FeedQuietAppend(rx, mx, r1, my, r2);
    FeedQuietAppend(rx, mx + my, r2, mp, WithField(r2, CC_PRESSURE_MSB, ps));
  }

  /** The ButtonId and ButtonState messages fill their two slots and report nothing. */
  lemma FeedButton(rx: Receiver, button: Int8, buttonDown: Int8)
    ensures var b := ButtonMessages(button, buttonDown);
      FeedMessages(rx, b) == Feed(rx.(buttonId := b[0].value, buttonState := b[1].value), [], 0)
  {
    var b := ButtonMessages(button, buttonDown);
    assert b[0].Bytes() == [0xB1, CC_BUTTON_ID, b[0].value];
    assert b[1].Bytes() == [0xB1, CC_BUTTON_STATE, b[1].value];
    assert b == [b[0]] + [b[1]];
    FeedQuietMessage(rx, b[0], [b[1]]);
    FeedQuietMessage(rx.(buttonId := b[0].value), b[1], []);
  }

  /** The Sequence message fills the sequence slot, then DataComplete(127) processes the buffer. */
  lemma FeedTrailer(rx: Receiver, sequence: Data7)
    ensures var s := ProcessCompleteEvent(rx.(sequence := sequence));
      FeedMessages(rx, FrameTrailer(sequence)) == Feed(s.rx, Delivered(s), if s.lossWarning then 1 else 0)
  {
    var t := FrameTrailer(sequence);
    var rx1 := rx.(sequence := sequence);
    var s := ProcessCompleteEvent(rx1);
    assert t == [t[0]] + [t[1]];
    SequenceStep(rx, sequence);
    CompleteStep(rx1);
    FeedCons(rx, t[0], [t[1]]);
    FeedCons(rx1, t[1], []);
    assert [] + Delivered(s) + [] == Delivered(s);
  }

  /** The Sequence message only fills the sequence slot. */
  lemma SequenceStep(rx: Receiver, sequence: Data7)
    ensures OnMidiMessage(rx, CreateControlChange(CHANNEL_DATA, CC_SEQUENCE, sequence).Bytes()) == Quiet(rx.(sequence := sequence))
  {
    assert CreateControlChange(CHANNEL_DATA, CC_SEQUENCE, sequence).Bytes() == [0xB0, CC_SEQUENCE, sequence];
    assert ParseDataMessage(rx, CC_SEQUENCE, sequence) == rx.(sequence := sequence);
  }

  /** The DataComplete(127) message processes the buffer. */
  lemma CompleteStep(rx: Receiver)
    ensures OnMidiMessage(rx, CreateControlChange(CHANNEL_CONTROL, CC_DATA_COMPLETE, FULL_SCALE).Bytes()) == ProcessCompleteEvent(rx)
  {
    var m := CreateControlChange(CHANNEL_CONTROL, CC_DATA_COMPLETE, FULL_SCALE);
    assert m == Message(0xB1, CC_DATA_COMPLETE, FULL_SCALE);
    assert OnMidiMessage(rx, m.Bytes()) == ParseControlMessage(rx, CC_DATA_COMPLETE, FULL_SCALE);
  }

  /**
   * The report a receiver with a callback delivers for `e` sent with sequence
   * number `sequence`: the three values' low 16 bits, and for a button the
   * wire id shifted back down and the down flag.
   */
  function Expected(e: Event, sequence: Data7): Report {
    if e.kind == TypeMotion then Touch(e.x % 0x1_0000, e.y % 0x1_0000, e.pressure % 0x1_0000, sequence)
    else ButtonPress((e.button + 1) % 0x80 - 1, e.buttonDown == 1,
                     e.x % 0x1_0000, e.y % 0x1_0000, e.pressure % 0x1_0000, sequence)
  }

  /** The receiver state after every message of `e`'s frame except the closing DataComplete. */
  function Buffered(rx: Receiver, e: Event, sequence: Data7): Receiver
    requires e.kind != TypeDisconnect
  {
    var coordinates := WithCoordinates(rx.(eventType := if e.kind == TypeMotion then 0 else 1),
      Encode16BitTo3x7Bit(e.x), Encode16BitTo3x7Bit(e.y), Encode16BitTo3x7Bit(e.pressure));
    var buttons :=
      if e.kind == TypeMotion then coordinates
      else
        var b := ButtonMessages(e.button, e.buttonDown);
        coordinates.(buttonId := b[0].value, buttonState := b[1].value);
    buttons.(sequence := sequence)
  }

  /** Feeding a Motion frame buffers its fields and then processes the buffer once. */
  lemma FeedMotionFrame(rx: Receiver, e: Event, counter: Data7)
    requires e.kind == TypeMotion
    ensures var r := ToMidiMessages(e, counter);
      var s := ProcessCompleteEvent(Buffered(rx, e, r.counter));
      FeedMessages(rx, r.frame.value) == Feed(s.rx, Delivered(s), if s.lossWarning then 1 else 0)
  {
    var r := ToMidiMessages(e, counter);
    var xs, ys, ps := Encode16BitTo3x7Bit(e.x), Encode16BitTo3x7Bit(e.y), Encode16BitTo3x7Bit(e.pressure);
    var h, c, t := FrameHeader(0), CoordinateMessages(xs, ys, ps), FrameTrailer(r.counter);
    assert r.frame.value == h + c + t;
    FeedHeader(rx, 0);
    FeedCoordinates(rx.(eventType := 0), xs, ys, ps);
    FeedTrailer(WithCoordinates(rx.(eventType := 0), xs, ys, ps), r.counter);
    FeedAppend(rx, h, c);
    FeedAppend(rx, h + c, t);
  }

  /** Everything of a Button frame before the trailer fills the buffer and reports nothing. */
  lemma FeedButtonPrefix(rx: Receiver, e: Event)
    requires e.kind == TypeButton
    ensures var xs, ys, ps := Encode16BitTo3x7Bit(e.x), Encode16BitTo3x7Bit(e.y), Encode16BitTo3x7Bit(e.pressure);
      var b := ButtonMessages(e.button, e.buttonDown);
      FeedMessages(rx, FrameHeader(1) + CoordinateMessages(xs, ys, ps) + b)
        == Feed(WithCoordinates(rx.(eventType := 1), xs, ys, ps).(buttonId := b[0].value, buttonState := b[1].value), [], 0)
  {
    var xs, ys, ps := Encode16BitTo3x7Bit(e.x), Encode16BitTo3x7Bit(e.y), Encode16BitTo3x7Bit(e.pressure);
    var h, c := FrameHeader(1), CoordinateMessages(xs, ys, ps);
    var rx1 := rx.(eventType := 1);
    var rx2 := WithCoordinates(rx1, xs, ys, ps);
    assert FeedMessages(rx, h + c) == Feed(rx2, [], 0) by {
      FeedHeader(rx, 1);
      FeedCoordinates(rx1, xs, ys, ps);
      FeedAppend(rx, h, c);
    }
    FeedButton(rx2, e.button, e.buttonDown);
    FeedAppend(rx, h + c, ButtonMessages(e.button, e.buttonDown));
  }

  /** Feeding a Button frame buffers its fields and then processes the buffer once. */
  lemma FeedButtonFrame(rx: Receiver, e: Event, counter: Data7)
    requires e.kind == TypeButton
    ensures var r := ToMidiMessages(e, counter);
      var s := ProcessCompleteEvent(Buffered(rx, e, r.counter));
      FeedMessages(rx, r.frame.value) == Feed(s.rx, Delivered(s), if s.lossWarning then 1 else 0)
  {
    var r := ToMidiMessages(e, counter);
    var xs, ys, ps := Encode16BitTo3x7Bit(e.x), Encode16BitTo3x7Bit(e.y), Encode16BitTo3x7Bit(e.pressure);
    var b := ButtonMessages(e.button, e.buttonDown);
    var prefix := FrameHeader(1) + CoordinateMessages(xs, ys, ps) + b;
    var t := FrameTrailer(r.counter);
    assert r.frame.value == prefix + t;
    FeedButtonPrefix(rx, e);
    var rx3 := WithCoordinates(rx.(eventType := 1), xs, ys, ps).(buttonId := b[0].value, buttonState := b[1].value);
    assert rx3.(sequence := r.counter) == Buffered(rx, e, r.counter);
    FeedTrailer(rx3, r.counter);
    FeedAppend(rx, prefix, t);
  }

  /** Three slots holding the encoding of `value` decode to its low 16 bits. */
  lemma BufferedValue(msb: int, mid: int, lsb: int, value: int)
    requires var f := Encode16BitTo3x7Bit(value); msb == f.msb % 0x80 && mid == f.mid % 0x80 && lsb == f.lsb % 0x80
    ensures Decode3x7BitTo16Bit(msb, mid, lsb) == value % 0x1_0000
  {
    var f := Encode16BitTo3x7Bit(value);
    DivModUnique(f.msb, 0x80, 0, f.msb);
    DivModUnique(f.mid, 0x80, 0, f.mid);
    DivModUnique(f.lsb, 0x80, 0, f.lsb);
    assert msb == f.msb && mid == f.mid && lsb == f.lsb;
    EncodeDecodeRoundTrip(value);
  }

  /** Processing a buffered frame reports the event's own values and the given sequence number. */
  lemma BufferedReport(rx: Receiver, e: Event, sequence: Data7)
    requires e.kind != TypeDisconnect
    ensures var s := ProcessCompleteEvent(Buffered(rx, e, sequence));
      && s.report == (if rx.hasCallback then Some(Expected(e, sequence)) else None)
      && s.rx.lastSequence == sequence
      && (s.lossWarning <==> rx.lastSequence != -1 && sequence != (rx.lastSequence + 1) % 0x80)
  {
    var bx := Buffered(rx, e, sequence);
    BufferedValue(bx.xMsb, bx.xMid, bx.xLsb, e.x);
    BufferedValue(bx.yMsb, bx.yMid, bx.yLsb, e.y);
    BufferedValue(bx.pMsb, bx.pMid, bx.pLsb, e.pressure);
    if e.kind == TypeButton {
      var b := ButtonMessages(e.button, e.buttonDown);
      assert bx.buttonId == b[0].value && bx.buttonState == b[1].value;
    }
  }

  /**
   * Feeding the frame of a Motion or Button event delivers exactly one report
   * (when a callback is set) carrying the event's values and the sequence
   * number the sender embedded; the receiver warns exactly when it had seen a
   * frame before and this number is not the successor of the last one, and it
   * remembers this number.
   */
  lemma FrameRoundTrip(rx: Receiver, e: Event, counter: Data7)
    requires e.kind != TypeDisconnect
    ensures var r := ToMidiMessages(e, counter);
      var f := FeedMessages(rx, r.frame.value);
      && f.reports == (if rx.hasCallback then [Expected(e, r.counter)] else [])
      && (f.warnings == 1 <==> rx.lastSequence != -1 && r.counter != (rx.lastSequence + 1) % 0x80)
      && f.warnings <= 1
      && f.rx.lastSequence == r.counter
  {
    var r := ToMidiMessages(e, counter);
    if e.kind == TypeMotion {
      FeedMotionFrame(rx, e, counter);
    } else {
      FeedButtonFrame(rx, e, counter);
    }
    BufferedReport(rx, e, r.counter);
  }

  /** The wire id maps back to the original button id for every id from -1 to 126, which covers the ids -1..2 the app sends. */
  lemma ButtonIdRecovered(button: Int8)
    requires -1 <= button <= 126
    ensures (button + 1) % 0x80 - 1 == button
  {
  }
  /**
   * A Button event built by the app's constructor, with one of the ids -1..2
   * it uses, comes out of the receiver with that id and that down flag.
   */
  lemma ButtonEventRoundTrip(rx: Receiver, x: Int16, y: Int16, pressure: Int16, button: Int32, down: bool, counter: Data7)
    requires rx.hasCallback && -1 <= button <= 2
    ensures var e := NewButtonEvent(TypeButton, x, y, pressure, button, down);
      var r := ToMidiMessages(e, counter);
      FeedMessages(rx, r.frame.value).reports
        == [ButtonPress(button, down, x % 0x1_0000, y % 0x1_0000, pressure % 0x1_0000, (counter + 1) % 0x80)]
  {
    var e := NewButtonEvent(TypeButton, x, y, pressure, button, down);
    var r := ToMidiMessages(e, counter);
    FrameRoundTrip(rx, e, counter);
    assert FeedMessages(rx, r.frame.value).reports == [Expected(e, r.counter)];
    ExpectedButton(e, r.counter);
  }

  /** The report expected for a Button event whose id the wire carries unchanged. */
  lemma ExpectedButton(e: Event, sequence: Data7)
    requires e.kind == TypeButton && -1 <= e.button <= 126
    ensures Expected(e, sequence)
      == ButtonPress(e.button, e.buttonDown == 1, e.x % 0x1_0000, e.y % 0x1_0000, e.pressure % 0x1_0000, sequence)
  {
    ButtonIdRecovered(e.button);
  }

  /** What the sender puts on the wire for a queue of events: the frames of the events before the first Disconnect, and the counter afterwards. */
  datatype Sent = Sent(messages: seq<Message>, counter: Data7)

  /** The sender's output for `events`, starting from sequence counter `counter`. */
  function Wire(events: seq<Event>, counter: Data7): (w: Sent)
    decreases |events|
  {
    if events == [] || events[0].kind == TypeDisconnect then Sent([], counter)
    else
      var r := ToMidiMessages(events[0], counter);
      var rest := Wire(events[1..], r.counter);
      Sent(r.frame.value + rest.messages, rest.counter)
  }

  /** The reports a receiver with a callback should deliver for the same events: one per frame, numbered by the counter. */
  function ExpectedReports(events: seq<Event>, counter: Data7): (rs: seq<Report>)
    ensures |rs| <= |events|
    decreases |events|
  {
    if events == [] || events[0].kind == TypeDisconnect then []
    else
      var next := (counter + 1) % 0x80;
      [Expected(events[0], next)] + ExpectedReports(events[1..], next)
  }

  /**
   * A receiver that has seen nothing yet, or whose last sequence number is the
   * sender's current counter, reports every event the sender puts on the wire,
   * in order and with its own values, and never warns of loss.
   */
  lemma {:induction false} StreamRoundTrip(rx: Receiver, events: seq<Event>, counter: Data7)
    requires rx.lastSequence == -1 || rx.lastSequence == counter
    ensures var f := FeedMessages(rx, Wire(events, counter).messages);
      && f.reports == (if rx.hasCallback then ExpectedReports(events, counter) else [])
      && f.warnings == 0
    decreases |events|
  {
    if events == [] || events[0].kind == TypeDisconnect {
    } else {
      var r := ToMidiMessages(events[0], counter);
      var f1 := FeedMessages(rx, r.frame.value);
      FrameInStream(rx, events[0], counter);
      StreamRoundTrip(f1.rx, events[1..], r.counter);
      assert ExpectedReports(events, counter) == [Expected(events[0], r.counter)] + ExpectedReports(events[1..], r.counter);
      WireCons(rx, events, counter);
    }
  }

  /**
   * One frame of an unbroken stream: a receiver that has seen nothing or
   * the previous counter value reports the event, does not warn, and is left
   * expecting the next frame.
   */
  lemma FrameInStream(rx: Receiver, e: Event, counter: Data7)
    requires e.kind != TypeDisconnect
    requires rx.lastSequence == -1 || rx.lastSequence == counter
    ensures var r := ToMidiMessages(e, counter);
      var f := FeedMessages(rx, r.frame.value);
      && f.reports == (if rx.hasCallback then [Expected(e, r.counter)] else [])
      && f.warnings == 0
      && f.rx.lastSequence == r.counter && f.rx.hasCallback == rx.hasCallback
  {
    FrameRoundTrip(rx, e, counter);
  }

  /** Feeding the wire of a queue is feeding its first frame, then the wire of the rest. */
  lemma WireCons(rx: Receiver, events: seq<Event>, counter: Data7)
    requires events != [] && events[0].kind != TypeDisconnect
    ensures var r := ToMidiMessages(events[0], counter);
      var f1 := FeedMessages(rx, r.frame.value);
      var fr := FeedMessages(f1.rx, Wire(events[1..], r.counter).messages);
      FeedMessages(rx, Wire(events, counter).messages) == Feed(fr.rx, f1.reports + fr.reports, f1.warnings + fr.warnings)
  {
    var r := ToMidiMessages(events[0], counter);
    FeedAppend(rx, r.frame.value, Wire(events[1..], r.counter).messages);
  }

  /** A fresh receiver and a fresh sender (counter 0) agree on the whole stream. */
  lemma FreshStreamRoundTrip(events: seq<Event>)
    ensures var f := FeedMessages(NewReceiver(true), Wire(events, 0).messages);
      f.reports == ExpectedReports(events, 0) && f.warnings == 0
  {
    StreamRoundTrip(NewReceiver(true), events, 0);
  }
}
