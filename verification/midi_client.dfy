/**
 * The sender side's connection lifecycle and sender loop (`MidiClient`, in
 * its Kotlin and Java twins), as a sequential state machine.
 *
 * The source runs the loop on its own thread and the device callbacks on the
 * main thread. Here every action is a function from client state to client
 * state, and an interleaving is a sequence of such calls. The sender thread
 * is represented by where it stands: not started or exited, at the top of
 * `while (isRunning)`, or blocked inside `queue.take()`.
 *
 * The Android MIDI service is an oracle. Each device description says in
 * advance whether `openDevice` throws, hands the callback null, or opens the
 * device, and which of its ports open. A send failure is given per frame as
 * the index of the first `send` call that throws.
 */
module MidiClient {
  import opened Bits
  import opened MidiEvent
  import MidiReceiver
  import WireRoundTrip

  /** Which of the two source twins an operation follows where they differ. */
  datatype Twin = Kotlin | Java

  /** The errors the client reports to its listener, one per distinct message text. */
  datatype ErrorKind = NoMidiFeature | NoMidiService | CannotOpenDevice | NoInputPort | SendFailed

  /** What the client posts to its status listener. */
  datatype Notice = Connected(device: nat) | Disconnected | Error(kind: ErrorKind)

  /** How `openDevice` treats a device: it throws, or its callback receives null, or it receives an open device. */
  datatype OpenBehaviour = OpenThrows | OpensNull | Opens

  /** One port of a device: its number, whether it is of type INPUT, and whether `openInputPort` returns non-null for it. */
  datatype PortInfo = PortInfo(number: nat, isInput: bool, opens: bool)

  /** A `MidiDeviceInfo` together with the oracle's answers about it. */
  datatype DeviceInfo = DeviceInfo(id: nat, isUsb: bool, open: OpenBehaviour, ports: seq<PortInfo>)

  /** Where the sender thread stands. */
  datatype SenderThread = NoThread | AtLoopHead | Blocked

  /**
   * The client's fields: the held device and open input port (by id and port
   * number), the running flag, the sender thread, the event queue, the
   * sequence counter of the encoder, and two logs standing for the outside
   * world: the messages sent on the wire and the notices posted to the
   * listener.
   */
  datatype Client = Client(
    device: Option<nat>,
    port: Option<nat>,
    running: bool,
    thread: SenderThread,
    queue: seq<Event>,
    counter: Data7,
    callbacksRegistered: bool,
    wire: seq<Message>,
    notices: seq<Notice>)

  /**
   * A client as constructed: nothing held, not running, no thread, empty
   * queue. The sequence counter is process-wide and the constructor does not
   * touch it, so a new client starts from the value `counter` it stands at.
   */
  function NewClient(counter: Data7): (c: Client)
    ensures !IsConnected(c) && c.device.None? && !c.running && c.thread == NoThread
    ensures c.queue == [] && c.counter == counter && !c.callbacksRegistered && c.wire == [] && c.notices == []
  {
    Client(None, None, false, NoThread, [], counter, false, [], [])
  }

  /** `isConnected`: an input port is open, which for a valid client means a device is held as well. */
  function IsConnected(c: Client): (connected: bool)
    ensures connected && Valid(c) ==> c.device.Some?
  {
    c.port.Some?
  }

  /** A port is only ever open on a held device. Every operation below keeps this. */
  predicate Valid(c: Client) {
    c.port.Some? ==> c.device.Some?
  }

  /**
   * `closeMidiDevice`: close and forget the port, then the device. A `close`
   * that throws is caught, and the field is cleared either way.
   */
  function CloseMidiDevice(c: Client): (d: Client)
    ensures !IsConnected(d) && d.device.None? && Valid(d)
    ensures d.(port := c.port, device := c.device) == c
  {
    c.(port := None, device := None)
  }

  /** `queue.offer` / `queue.add`: append an event. */
  function Enqueue(c: Client, e: Event): (d: Client)
    ensures d.queue == c.queue + [e]
    ensures d.(queue := c.queue) == c
  {
    c.(queue := c.queue + [e])
  }

  /** `start`: when not running, set the flag and start a new sender thread at the top of its loop. */
  function Start(c: Client): (d: Client)
    ensures d.running
    ensures !c.running ==> d == c.(running := true, thread := AtLoopHead)
    ensures c.running ==> d == c
  {
    if !c.running then c.(running := true, thread := AtLoopHead) else c
  }

  /**
   * `stop`: when running, clear the flag, queue a Disconnect, wait a bounded
   * time for the sender, and close the device whatever the wait's outcome.
   * The wait is modelled as not advancing the sender, which is the outcome
   * when the bound elapses first; the sender's own steps are separate actions.
   */
  function Stop(c: Client): (d: Client)
    ensures !d.running
    ensures !c.running ==> d == c
    ensures c.running ==> d.queue == c.queue + [NewEvent(TypeDisconnect)] && !IsConnected(d) && d.device.None?
    ensures c.running ==> d.(running := true, queue := c.queue, port := c.port, device := c.device) == c
  {
    if c.running then
      CloseMidiDevice(c.(running := false, queue := c.queue + [NewEvent(TypeDisconnect)]))
    else c
  }

  /** What one `sendMidiMessages` call put on the wire, and whether it reported an error. */
  datatype SendOutcome = SendOutcome(sent: seq<Message>, failed: bool)

  /**
   * `sendMidiMessages`: with no port, send nothing. Otherwise send the
   * messages in order. When the send with index `k` throws an IOException,
   * the remaining messages are abandoned and one error is reported.
   */
  function SendMidiMessages(portOpen: bool, frame: seq<Message>, fault: Option<nat>): (o: SendOutcome)
    ensures !portOpen ==> o.sent == [] && !o.failed
    ensures o.sent <= frame
    ensures o.failed <==> portOpen && fault.Some? && fault.value < |frame|
    ensures o.failed ==> o.sent == frame[..fault.value]
    ensures portOpen && !o.failed ==> o.sent == frame
  {
    if !portOpen then SendOutcome([], false)
    else if fault.Some? && fault.value < |frame| then SendOutcome(frame[..fault.value], true)
    else SendOutcome(frame, false)
  }

  /**
   * The body of the sender loop after `queue.take()` returned `e`: a
   * Disconnect ends the thread; with no port the event is dropped before it
   * is converted, so it takes no sequence number; otherwise the event is
   * converted, advancing the counter, and its frame is sent.
   */
  function HandleTaken(c: Client, e: Event, fault: Option<nat>): (d: Client)
    ensures d.thread == (if e.kind == TypeDisconnect then NoThread else AtLoopHead)
    ensures d.(thread := c.thread, counter := c.counter, wire := c.wire, notices := c.notices) == c
    ensures e.kind == TypeDisconnect || !IsConnected(c) ==>
      d.counter == c.counter && d.wire == c.wire && d.notices == c.notices
    ensures e.kind != TypeDisconnect && IsConnected(c) ==>
      var frame := ToMidiMessages(e, c.counter).frame.value;
      && d.counter == (c.counter + 1) % 0x80
      && c.wire <= d.wire && d.wire[|c.wire|..] <= frame
      && (fault.None? ==> d.wire == c.wire + frame)
      && d.notices == c.notices + (if d.wire == c.wire + frame then [] else [Error(SendFailed)])
  {
    if e.kind == TypeDisconnect then c.(thread := NoThread)
    else if c.port.None? then c.(thread := AtLoopHead)
    else
      var r := ToMidiMessages(e, c.counter);
      var o := SendMidiMessages(true, r.frame.value, fault);
      c.(thread := AtLoopHead, counter := r.counter, wire := c.wire + o.sent,
         notices := c.notices + (if o.failed then [Error(SendFailed)] else []))
  }

  /**
   * One step of the sender thread. At the top of the loop it exits when the
   * flag is clear, and otherwise enters `take()`. Inside `take()` it waits
   * while the queue is empty, and otherwise removes the head and handles it;
   * the flag is not looked at again until the next iteration.
   */
  function SenderStep(c: Client, fault: Option<nat>): (d: Client)
    ensures c.thread == NoThread ==> d == c
    ensures c.thread == AtLoopHead && !c.running ==> d == c.(thread := NoThread)
    ensures c.thread != NoThread && (c.running || c.thread == Blocked) && c.queue == [] ==> d == c.(thread := Blocked)
    ensures c.thread != NoThread && (c.running || c.thread == Blocked) && c.queue != [] ==>
      d == HandleTaken(c.(queue := c.queue[1..]), c.queue[0], fault)
  {
    match c.thread
    case NoThread => c
    case AtLoopHead =>
      if !c.running then c.(thread := NoThread)
      else if c.queue == [] then c.(thread := Blocked)
      else HandleTaken(c.(queue := c.queue[1..]), c.queue[0], fault)
    case Blocked =>
      if c.queue == [] then c
      else HandleTaken(c.(queue := c.queue[1..]), c.queue[0], fault)
  }

  /** The fault for the next frame, and the faults after it: an exhausted list means no further faults. */
  function NextFault(faults: seq<Option<nat>>): Option<nat> {
    if faults == [] then None else faults[0]
  }

  function LaterFaults(faults: seq<Option<nat>>): seq<Option<nat>> {
    if faults == [] then [] else faults[1..]
  }

  /**
   * The sender thread left alone until it exits or blocks on an empty queue.
   * `faults[i]` is the fault for the `i`-th event it takes.
   */
  function Run(c: Client, faults: seq<Option<nat>>): (d: Client)
    ensures d.thread != AtLoopHead
    ensures d.thread == Blocked ==> d.queue == []
    ensures |d.queue| <= |c.queue|
    ensures d.device == c.device && d.port == c.port && d.running == c.running
    ensures d.callbacksRegistered == c.callbacksRegistered
    decreases |c.queue|, c.thread == AtLoopHead
  {
    if c.thread == NoThread then c
    else if c.thread == AtLoopHead && !c.running then c.(thread := NoThread)
    else if c.queue == [] then c.(thread := Blocked)
    else
      var d := HandleTaken(c.(queue := c.queue[1..]), c.queue[0], NextFault(faults));
      if d.thread == NoThread then d else Run(d, LaterFaults(faults))
  }

  /** The position of the first Disconnect in `q`, or `|q|` when there is none. */
  function FirstDisconnect(q: seq<Event>): (k: nat)
    ensures k <= |q|
    ensures k < |q| ==> q[k].kind == TypeDisconnect
    ensures forall i | 0 <= i < k :: q[i].kind != TypeDisconnect
  {
    if q == [] || q[0].kind == TypeDisconnect then 0 else 1 + FirstDisconnect(q[1..])
  }

  /**
   * A running sender processes the queue in order up to its first
   * Disconnect, consumes that Disconnect and exits; events after it stay in
   * the queue, never taken. With no Disconnect it empties the queue and
   * blocks.
   */
  lemma {:induction false} RunStopsAtFirstDisconnect(c: Client, faults: seq<Option<nat>>)
    requires c.running && c.thread != NoThread
    ensures var d := Run(c, faults);
      var k := FirstDisconnect(c.queue);
      && (k < |c.queue| ==> d.thread == NoThread && d.queue == c.queue[k + 1..])
      && (k == |c.queue| ==> d.thread == Blocked && d.queue == [])
    decreases |c.queue|
  {
    if c.queue != [] {
      var d := HandleTaken(c.(queue := c.queue[1..]), c.queue[0], NextFault(faults));
      if d.thread != NoThread {
        if FirstDisconnect(c.queue) < |c.queue| {
          assert c.queue[1..][FirstDisconnect(c.queue[1..]) + 1..] == c.queue[FirstDisconnect(c.queue) + 1..];
        }
        RunStopsAtFirstDisconnect(d, LaterFaults(faults));
      }
    }
  }

  /**
   * With a port open and no send failing, the sender puts on the wire exactly
   * the frames of the queued events before the first Disconnect, numbered
   * from the current counter on, and reports nothing.
   */
  lemma {:induction false} RunSendsWire(c: Client)
    requires c.running && c.thread != NoThread && IsConnected(c)
    ensures var d := Run(c, []);
      var w := WireRoundTrip.Wire(c.queue, c.counter);
      d.wire == c.wire + w.messages && d.counter == w.counter && d.notices == c.notices
    decreases |c.queue|
  {
    if c.queue != [] && c.queue[0].kind != TypeDisconnect {
      var r := ToMidiMessages(c.queue[0], c.counter);
      var d := HandleTaken(c.(queue := c.queue[1..]), c.queue[0], None);
      assert d.wire == c.wire + r.frame.value && d.counter == r.counter && d.notices == c.notices;
      assert d.thread == AtLoopHead && d.running && IsConnected(d) && d.queue == c.queue[1..];
      assert Run(c, []) == Run(d, []);
      var rest := WireRoundTrip.Wire(c.queue[1..], r.counter);
      assert WireRoundTrip.Wire(c.queue, c.counter) == WireRoundTrip.Sent(r.frame.value + rest.messages, rest.counter);
      RunSendsWire(d);
      AppendAssoc(c.wire, r.frame.value, rest.messages);
    }
  }

  /**
   * A client built while the process-wide counter stands at `counter`
   * carries on from it: its first frame is the one the encoder makes from
   * `counter`, and a receiver that last saw `counter` takes it without a
   * loss warning.
   */
  lemma NewClientContinuesSequence(counter: Data7, e: Event, rx: MidiReceiver.Receiver)
    requires e.kind != TypeDisconnect && rx.lastSequence == counter
    ensures var c := Enqueue(Start(NewClient(counter).(device := Some(0), port := Some(0))), e);
      var d := Run(c, []);
      && d.wire == ToMidiMessages(e, counter).frame.value
      && WireRoundTrip.FeedMessages(rx, d.wire).warnings == 0
  {
    var c := Enqueue(Start(NewClient(counter).(device := Some(0), port := Some(0))), e);
    RunSendsWire(c);
    assert c.queue == [e] && c.queue[1..] == [];
    var r := ToMidiMessages(e, counter);
    assert WireRoundTrip.Wire(c.queue, counter).messages == r.frame.value + [];
    WireRoundTrip.FrameRoundTrip(rx, e, counter);
  }

  /**
   * With no port open the sender drops every event it takes: nothing goes on
   * the wire, nothing is reported, and the sequence counter does not move.
   */
  lemma {:induction false} RunWithoutPortDrops(c: Client, faults: seq<Option<nat>>)
    requires !IsConnected(c)
    ensures var d := Run(c, faults);
      d.wire == c.wire && d.notices == c.notices && d.counter == c.counter
    decreases |c.queue|
  {
    if c.thread != NoThread && !(c.thread == AtLoopHead && !c.running) && c.queue != [] {
      var d := HandleTaken(c.(queue := c.queue[1..]), c.queue[0], NextFault(faults));
      if d.thread != NoThread {
        RunWithoutPortDrops(d, LaterFaults(faults));
      }
    }
  }

  /**
   * A failing send does not change the numbering: the counter after the run
   * is the same for every fault list, so only the wire and the error notices
   * differ.
   */
  lemma {:induction false} RunCounterIgnoresFaults(c: Client, f1: seq<Option<nat>>, f2: seq<Option<nat>>)
    ensures Run(c, f1).counter == Run(c, f2).counter && Run(c, f1).queue == Run(c, f2).queue
    ensures Run(c, f1).thread == Run(c, f2).thread
    decreases |c.queue|
  {
    if c.thread != NoThread && !(c.thread == AtLoopHead && !c.running) && c.queue != [] {
      var d1 := HandleTaken(c.(queue := c.queue[1..]), c.queue[0], NextFault(f1));
      var d2 := HandleTaken(c.(queue := c.queue[1..]), c.queue[0], NextFault(f2));
      assert d1.(wire := d2.wire, notices := d2.notices) == d2;
      if d1.thread != NoThread {
        RunCounterIgnoresFaults(d1, LaterFaults(f1), LaterFaults(f2));
        RunStateIgnoresLogs(d1, d2.wire, d2.notices, LaterFaults(f2));
      }
    }
  }

  /** The sender's control state does not depend on the two logs it appends to. */
  lemma {:induction false} RunStateIgnoresLogs(c: Client, wire: seq<Message>, notices: seq<Notice>, faults: seq<Option<nat>>)
    ensures var d1 := Run(c, faults);
      var d2 := Run(c.(wire := wire, notices := notices), faults);
      d1.counter == d2.counter && d1.queue == d2.queue && d1.thread == d2.thread
    decreases |c.queue|
  {
    var c2 := c.(wire := wire, notices := notices);
    if c.thread != NoThread && !(c.thread == AtLoopHead && !c.running) && c.queue != [] {
      var d1 := HandleTaken(c.(queue := c.queue[1..]), c.queue[0], NextFault(faults));
      var d2 := HandleTaken(c2.(queue := c2.queue[1..]), c2.queue[0], NextFault(faults));
      assert d2 == d1.(wire := d2.wire, notices := d2.notices);
      if d1.thread != NoThread {
        RunStateIgnoresLogs(d1, d2.wire, d2.notices, LaterFaults(faults));
      }
    }
  }

  /**
   * A send failing at message `k` of a frame: the wire gets the frame's first
   * `k` messages, one error is reported, the counter has still advanced, and
   * the thread goes back to the top of its loop.
   */
  lemma SendFailureTruncatesFrame(c: Client, e: Event, k: nat)
    requires IsConnected(c) && e.kind != TypeDisconnect
    requires k < |ToMidiMessages(e, c.counter).frame.value|
    ensures var r := ToMidiMessages(e, c.counter);
      var d := HandleTaken(c, e, Some(k));
      && d.wire == c.wire + r.frame.value[..k]
      && d.notices == c.notices + [Error(SendFailed)]
      && d.counter == r.counter
      && d.thread == AtLoopHead
  {
  }

  /** `start` is idempotent. */
  lemma StartIdempotent(c: Client)
    ensures Start(Start(c)) == Start(c)
  {
  }

  /** A second `stop` does nothing. */
  lemma StopIdempotent(c: Client)
    ensures Stop(Stop(c)) == Stop(c)
  {
  }

  /**
   * The stale Disconnect. When `stop` runs while the sender is between
   * iterations, the sender sees the cleared flag and exits without taking the
   * Disconnect that `stop` queued. A later `start` runs a new sender, which
   * takes that stale Disconnect first and exits at once: an event queued
   * after the restart is never sent, although the client is running with a
   * port open.
   */
  lemma StaleDisconnectAfterRestart(c: Client, e: Event, port: nat, faults: seq<Option<nat>>)
    requires c.running && c.thread == AtLoopHead && c.queue == [] && e.kind != TypeDisconnect
    ensures var c1 := SenderStep(Stop(c), None);
      var c2 := Enqueue(Start(c1).(device := Some(port), port := Some(port)), e);
      var d := Run(c2, faults);
      && c1.thread == NoThread && c1.queue == [NewEvent(TypeDisconnect)]
      && d.running && IsConnected(d) && d.thread == NoThread
      && d.queue == [e] && d.wire == c2.wire
  {
    var c1 := SenderStep(Stop(c), None);
    var c2 := Enqueue(Start(c1).(device := Some(port), port := Some(port)), e);
    assert c2.queue == [NewEvent(TypeDisconnect), e];
    assert c2.queue[1..] == [e];
  }

  /** What an `openDevice` attempt did: the client afterwards, and whether the call threw before any callback ran. */
  datatype Opened = Opened(client: Client, threw: bool)

  /** The first port in `ports` that is of type INPUT, if any. */
  function FirstInputPort(ports: seq<PortInfo>): (p: Option<PortInfo>)
    ensures p.Some? ==> p.value in ports && p.value.isInput
    ensures p.None? <==> forall i | 0 <= i < |ports| :: !ports[i].isInput
  {
    if ports == [] then None
    else if ports[0].isInput then Some(ports[0])
    else FirstInputPort(ports[1..])
  }

  /** The first port in `ports` that is of type INPUT and opens, if any. */
  function FirstOpenableInputPort(ports: seq<PortInfo>): (p: Option<PortInfo>)
    ensures p.Some? ==> p.value in ports && p.value.isInput && p.value.opens
    ensures p.None? <==> forall i | 0 <= i < |ports| :: !(ports[i].isInput && ports[i].opens)
  {
    if ports == [] then None
    else if ports[0].isInput && ports[0].opens then Some(ports[0])
    else FirstOpenableInputPort(ports[1..])
  }

  /**
   * The port-opening part of the open callback. Kotlin tries only the first
   * INPUT port; Java tries each INPUT port in turn, assigning the result each
   * time, until one opens. With no INPUT port at all the field is left as it
   * was.
   */
  function OpenInputPort(twin: Twin, previous: Option<nat>, ports: seq<PortInfo>): (p: Option<nat>)
    ensures FirstInputPort(ports).None? ==> p == previous
    ensures twin == Kotlin && FirstInputPort(ports).Some? ==>
      p == (if FirstInputPort(ports).value.opens then Some(FirstInputPort(ports).value.number) else None)
    ensures twin == Java && FirstInputPort(ports).Some? ==>
      p == (if FirstOpenableInputPort(ports).Some? then Some(FirstOpenableInputPort(ports).value.number) else None)
  {
    match twin
    case Kotlin =>
      var first := FirstInputPort(ports);
      if first.None? then previous
      else if first.value.opens then Some(first.value.number) else None
    case Java => JavaPortLoop(previous, ports)
  }

  /** The Java port loop: each INPUT port's open result is stored, and the loop stops at the first non-null one. */
  function JavaPortLoop(current: Option<nat>, ports: seq<PortInfo>): (p: Option<nat>)
    decreases |ports|
    ensures FirstInputPort(ports).None? ==> p == current
    ensures FirstInputPort(ports).Some? ==>
      p == (if FirstOpenableInputPort(ports).Some? then Some(FirstOpenableInputPort(ports).value.number) else None)
  {
    if ports == [] then current
    else if !ports[0].isInput then JavaPortLoop(current, ports[1..])
    else if ports[0].opens then Some(ports[0].number)
    else JavaPortLoop(None, ports[1..])
  }

  /**
   * `openMidiDevice`, with its callback run at once. `openDevice` may throw,
   * in which case nothing changes. A null device reports an error. An open
   * device is held, its input port is opened as the twin does it, the
   * listener hears of a connection when a port opened, and an error when the
   * port field is still null afterwards.
   */
  function OpenMidiDevice(twin: Twin, c: Client, info: DeviceInfo): (o: Opened)
    ensures o.threw <==> info.open == OpenThrows
    ensures info.open == OpenThrows ==> o.client == c
    ensures info.open == OpensNull ==> o.client == c.(notices := c.notices + [Error(CannotOpenDevice)])
    ensures info.open == Opens ==> o.client.device == Some(info.id)
    ensures info.open == Opens ==> o.client.port == OpenInputPort(twin, c.port, info.ports)
    ensures info.open == Opens && FirstInputPort(info.ports).None? ==>
      o.client.port == c.port && o.client.notices == c.notices + (if c.port.None? then [Error(NoInputPort)] else [])
    ensures info.open == Opens && FirstInputPort(info.ports).Some? ==>
      (IsConnected(o.client) <==> (if twin == Kotlin then FirstInputPort(info.ports).value.opens
                                   else FirstOpenableInputPort(info.ports).Some?))
    ensures info.open == Opens && FirstInputPort(info.ports).Some? && IsConnected(o.client) ==>
      o.client.notices == c.notices + [Connected(info.id)]
    ensures IsConnected(o.client) && !IsConnected(c) ==> o.client.notices == c.notices + [Connected(info.id)]
    ensures info.open == Opens && !IsConnected(o.client) ==> o.client.notices == c.notices + [Error(NoInputPort)]
    ensures Valid(c) ==> Valid(o.client)
    ensures o.client.(device := c.device, port := c.port, notices := c.notices) == c
  {
    match info.open
    case OpenThrows => Opened(c, true)
    case OpensNull => Opened(c.(notices := c.notices + [Error(CannotOpenDevice)]), false)
    case Opens =>
      var first := FirstInputPort(info.ports);
      var port := OpenInputPort(twin, c.port, info.ports);
      var gotPort := first.Some? && port.Some?;
      var connected := if gotPort then [Connected(info.id)] else [];
      var failed := if port.None? then [Error(NoInputPort)] else [];
      Opened(c.(device := Some(info.id), port := port, notices := c.notices + connected + failed), false)
  }

  /** The devices `initializeMidi` lists, and whether the MIDI feature and service are present. */
  datatype Environment = Environment(hasMidiFeature: bool, hasMidiService: bool, devices: seq<DeviceInfo>)

  /** The result of `initializeMidi`: the client afterwards and the returned flag. */
  datatype Initialized = Initialized(client: Client, ok: bool)

  /** The first USB device in `devices`, if any. */
  function FirstUsb(devices: seq<DeviceInfo>): (d: Option<DeviceInfo>)
    ensures d.Some? ==> d.value in devices && d.value.isUsb
    ensures d.None? <==> forall i | 0 <= i < |devices| :: !devices[i].isUsb
  {
    if devices == [] then None
    else if devices[0].isUsb then Some(devices[0])
    else FirstUsb(devices[1..])
  }

  /** The first USB device in `devices` whose `openDevice` does not throw, if any. */
  function FirstUsbNotThrowing(devices: seq<DeviceInfo>): (d: Option<DeviceInfo>)
    ensures d.Some? ==> d.value in devices && d.value.isUsb && d.value.open != OpenThrows
    ensures d.None? <==> forall i | 0 <= i < |devices| :: !(devices[i].isUsb && devices[i].open != OpenThrows)
  {
    if devices == [] then None
    else if devices[0].isUsb && devices[0].open != OpenThrows then Some(devices[0])
    else FirstUsbNotThrowing(devices[1..])
  }

  /**
   * The Java device loop: every USB device is tried in turn; one whose open
   * throws is skipped, and the loop stops after the first that does not.
   */
  function JavaDeviceLoop(c: Client, devices: seq<DeviceInfo>): (d: Client)
    ensures FirstUsbNotThrowing(devices).None? ==> d == c
    ensures FirstUsbNotThrowing(devices).Some? ==> d == OpenMidiDevice(Java, c, FirstUsbNotThrowing(devices).value).client
  {
    if devices == [] then c
    else if !devices[0].isUsb then JavaDeviceLoop(c, devices[1..])
    else
      var o := OpenMidiDevice(Java, c, devices[0]);
      if o.threw then JavaDeviceLoop(o.client, devices[1..]) else o.client
  }

  /**
   * `initializeMidi`: fail with an error when the MIDI feature or service is
   * missing; with an empty device list register the add/remove callbacks and
   * succeed; otherwise open a USB device (Kotlin: only the first one, any
   * exception caught; Java: the first whose open does not throw) and succeed.
   * Callbacks are registered only in the empty-list case.
   */
  function InitializeMidi(twin: Twin, c: Client, env: Environment): (r: Initialized)
    ensures r.ok <==> env.hasMidiFeature && env.hasMidiService
    ensures !env.hasMidiFeature ==> r.client == c.(notices := c.notices + [Error(NoMidiFeature)])
    ensures env.hasMidiFeature && !env.hasMidiService ==> r.client == c.(notices := c.notices + [Error(NoMidiService)])
    ensures r.client.callbacksRegistered <==> c.callbacksRegistered || (r.ok && env.devices == [])
    ensures r.ok && env.devices == [] ==> r.client == c.(callbacksRegistered := true)
    ensures r.client.device != c.device ==> exists i | 0 <= i < |env.devices| :: env.devices[i].isUsb && r.client.device == Some(env.devices[i].id)
    ensures twin == Kotlin && r.client.device != c.device ==>
      FirstUsb(env.devices).Some? && r.client.device == Some(FirstUsb(env.devices).value.id)
    ensures twin == Java && r.client.device != c.device ==>
      FirstUsbNotThrowing(env.devices).Some? && r.client.device == Some(FirstUsbNotThrowing(env.devices).value.id)
    ensures r.ok && twin == Kotlin && FirstUsb(env.devices).Some? ==>
      r.client == OpenMidiDevice(Kotlin, c, FirstUsb(env.devices).value).client
    ensures r.ok && twin == Java && FirstUsbNotThrowing(env.devices).Some? ==>
      r.client == OpenMidiDevice(Java, c, FirstUsbNotThrowing(env.devices).value).client
    ensures r.ok && env.devices != [] && (if twin == Kotlin then FirstUsb(env.devices) else FirstUsbNotThrowing(env.devices)).None? ==>
      r.client == c
    ensures Valid(c) ==> Valid(r.client)
    ensures r.client.(device := c.device, port := c.port, notices := c.notices, callbacksRegistered := c.callbacksRegistered) == c
  {
    if !env.hasMidiFeature then Initialized(c.(notices := c.notices + [Error(NoMidiFeature)]), false)
    else if !env.hasMidiService then Initialized(c.(notices := c.notices + [Error(NoMidiService)]), false)
    else if env.devices == [] then Initialized(c.(callbacksRegistered := true), true)
    else
      match twin
      case Kotlin =>
        var usb := FirstUsb(env.devices);
        if usb.None? then Initialized(c, true)
        else Initialized(OpenMidiDevice(Kotlin, c, usb.value).client, true)
      case Java =>
        Initialized(JavaDeviceLoop(c, env.devices), true)
  }

  /**
   * Without a USB device neither twin opens anything: a client that was not
   * connected is still not connected afterwards, whether initialisation
   * failed, registered the callbacks or found only non-USB devices.
   */
  lemma InitializeWithoutUsbNotConnected(twin: Twin, c: Client, env: Environment)
    requires !IsConnected(c)
    requires forall i | 0 <= i < |env.devices| :: !env.devices[i].isUsb
    ensures !IsConnected(InitializeMidi(twin, c, env).client)
    ensures InitializeMidi(twin, c, env).client.device == c.device
  {
  }

  /**
   * The registered `onDeviceAdded`: open the new device only when none is
   * held. The open call is not guarded, so when `openDevice` throws the
   * exception leaves the callback (`threw`). Without registered callbacks
   * the event does not reach the client.
   */
  function DeviceAdded(twin: Twin, c: Client, info: DeviceInfo): (o: Opened)
    ensures !c.callbacksRegistered || c.device.Some? ==> o == Opened(c, false)
    ensures c.callbacksRegistered && c.device.None? ==> o == OpenMidiDevice(twin, c, info)
    ensures Valid(c) ==> Valid(o.client)
  {
    if c.callbacksRegistered && c.device.None? then OpenMidiDevice(twin, c, info) else Opened(c, false)
  }

  /**
   * The registered `onDeviceRemoved`: close whatever is held and report a
   * disconnection, whichever device was removed.
   */
  function DeviceRemoved(c: Client, info: DeviceInfo): (d: Client)
    ensures !c.callbacksRegistered ==> d == c
    ensures c.callbacksRegistered ==>
      && !IsConnected(d) && d.device.None?
      && d.notices == c.notices + [Disconnected]
      && d.(device := c.device, port := c.port, notices := c.notices) == c
    ensures Valid(c) ==> Valid(d)
  {
    if c.callbacksRegistered then
      var closed := CloseMidiDevice(c);
      closed.(notices := closed.notices + [Disconnected])
    else c
  }

  /** The removal callback does not look at which device left: removing any two devices has the same effect. */
  lemma RemovalIgnoresDevice(c: Client, a: DeviceInfo, b: DeviceInfo)
    ensures DeviceRemoved(c, a) == DeviceRemoved(c, b)
  {
  }

  /**
   * A held device without an open port blocks every later add: the client
   * stays disconnected until a removal closes the device.
   */
  lemma StuckWithoutPort(twin: Twin, c: Client, info: DeviceInfo)
    requires c.device.Some? && !IsConnected(c)
    ensures DeviceAdded(twin, c, info) == Opened(c, false)
    ensures !IsConnected(DeviceAdded(twin, c, info).client)
  {
  }

  /**
   * A device whose INPUT ports all fail to open is held without a port after
   * the add callback, and then the client is stuck as above.
   */
  lemma OpenedWithoutPortIsStuck(twin: Twin, c: Client, info: DeviceInfo, later: DeviceInfo)
    requires c.callbacksRegistered && c.device.None? && info.open == Opens
    requires forall i | 0 <= i < |info.ports| :: !info.ports[i].opens
    requires FirstInputPort(info.ports).Some?
    ensures var d := DeviceAdded(twin, c, info).client;
      d.device.Some? && !IsConnected(d) && DeviceAdded(twin, d, later).client == d
  {
    var first := FirstInputPort(info.ports);
    assert first.value in info.ports;
  }

  /**
   * The twins differ at initialisation: with a first USB device whose open
   * throws and a second that opens, Kotlin holds nothing while Java holds
   * the second device.
   */
  lemma TwinsDifferOnThrowingDevice(c: Client, bad: DeviceInfo, good: DeviceInfo)
    requires bad.isUsb && bad.open == OpenThrows && good.isUsb && good.open == Opens
    requires c.device.None?
    ensures var env := Environment(true, true, [bad, good]);
      && InitializeMidi(Kotlin, c, env).client.device.None?
      && InitializeMidi(Java, c, env).client.device == Some(good.id)
  {
    var env := Environment(true, true, [bad, good]);
    assert FirstUsb(env.devices) == Some(bad);
    assert env.devices[1..] == [good];
  }

  /**
   * The twins differ on ports: with a first INPUT port that fails and a
   * second that opens, Kotlin stays disconnected while Java connects.
   */
  lemma TwinsDifferOnFailingPort(c: Client, id: nat, p1: nat, p2: nat)
    ensures var info := DeviceInfo(id, true, Opens, [PortInfo(p1, true, false), PortInfo(p2, true, true)]);
      && !IsConnected(OpenMidiDevice(Kotlin, c, info).client)
      && OpenMidiDevice(Java, c, info).client.port == Some(p2)
  {
    var ports := [PortInfo(p1, true, false), PortInfo(p2, true, true)];
    assert ports[1..] == [PortInfo(p2, true, true)];
  }

  /** Stopping leaves the client disconnected and holding no device, whatever it held. */
  lemma StopDisconnects(c: Client)
    requires c.running
    ensures !IsConnected(Stop(c)) && Stop(c).device.None?
  {
  }
}
