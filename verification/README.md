# StylusSync in Dafny

StylusSync turns an Android tablet into a graphics tablet for a computer. The
app (written twice, once in Kotlin and once in Java, with the same structure)
turns stylus and finger input into events. It encodes each event as a frame
of 3-byte MIDI Control Change messages and sends the frames over USB MIDI. A
Python client on the computer reassembles the frames into touch and button
reports.

This project models the core of that pipeline and proves properties of it:

| module | file | what it models |
|---|---|---|
| `Bits` | `bits.dfy` | JVM integer ranges, narrowing to a byte, truncating division, bitwise OR on naturals |
| `MidiEvent` | `midi_event.dfy` | the event record and its constructors, the 16-bit to 3x7-bit codec, `createControlChange`, `toMidiMessages` with the 7-bit sequence counter |
| `MidiReceiver` | `midi_receiver.dfy` | the Python `MidiReceiver`: message routing, buffer slots, loss detection, report decoding |
| `WireRoundTrip` | `wire_round_trip.dfy` | the sender and the receiver put together: frame and stream round trips |
| `MidiClient` | `midi_client.dfy` | `MidiClient`: device discovery and opening, port selection, the start/stop lifecycle, and the sender loop with its send failures |
| `CanvasView` | `canvas_view.dfy` | `CanvasView`: the hover/touch proximity state machine and side-button edge detection |
| `ImageManager` | `image_manager.dfy` | `calculateInSampleSize` and its caller's guard |
| `PermissionManager` | `permission_manager.dfy` | `isPermissionGranted` |

The Kotlin and Java twins are one model wherever they behave alike. Where they
differ, the operation takes a `Twin` argument. The differences are:

- Java tries every USB device and every INPUT port; Kotlin tries only the first of each.
- Kotlin's client setter disables the view for a null client; Java's always enables it.
- Kotlin drops events when there is no client; Java dereferences null and throws.

Arithmetic is on unbounded integers, with the JVM behaviour written out:

- The sequence counter wraps at 128.
- A button id is narrowed to a signed byte.
- Division truncates toward zero.
- `and 0x7F` is Euclidean `% 128`, and arithmetic `shr` is Euclidean division by a power of two.

`or` is defined bit by bit. A lemma shows it equals `+` on the disjoint bit ranges the codec uses. The decoders compute the OR itself. The status byte of a Control Change message is written as the sum, and `StatusIsBitwiseOr` proves it equals the OR.

The sequence counter is a process-wide static of `MidiEvent`, which is never reset. Here it is an explicit value: `ToMidiMessages` takes it and returns the next one. The client state's counter field stands in for the static. `NewClient` takes the counter's current value, because a client built later, say by a recreated activity, carries on from where the previous one stopped.

The client's threads become a sequential state machine:

- Every action (`Start`, `Stop`, `Enqueue`, one `SenderStep`, a device callback) is a function on the client state.
- The sender thread is represented by where it stands: not running, at the top of `while (isRunning)`, or blocked in `take()`.
- The Android MIDI service is an oracle. Each device says in advance whether `openDevice` throws, returns null or opens, and which ports open.
- A send failure is given per frame as the index of the `send` call that throws.
- The wire and the listener's notices are logs in the state.

## Model

| member | source | states |
|---|---|---|
| MidiEvent.NewEvent | app-android/app/src/main/java/team/misakanet/stylussync/midi/MidiEvent.kt:100-102 | an event built from a type alone has that type and 0 in every coordinate, pressure and button field |
| MidiEvent.NewMotionEvent | app-android/app/src/main/java/team/misakanet/stylussync/midi/MidiEvent.kt:111-115 | the motion constructor stores the three values and leaves button id and flag at 0 |
| MidiEvent.NewButtonEvent | app-android/app/src/main/java/team/misakanet/stylussync/midi/MidiEvent.kt:126-129 | an id in the signed byte range survives narrowing unchanged, and the stored flag is 1 exactly when the button is down and 0 exactly when it is up |
| MidiEvent.Encode16BitTo3x7Bit | app-android/app/src/main/java/team/misakanet/stylussync/midi/MidiEvent.kt:226-234 | every field is a 7-bit MIDI data value, and the low field only uses bits 5-6 |
| MidiEvent.Decode3x7BitTo16Bit | app-android/app/src/main/java/team/misakanet/stylussync/midi/MidiEvent.kt:61-65 | the OR of the three shifted fields is their weighted sum, so the result is a 16-bit value |
| MidiEvent.EncodeDecodeRoundTrip | app-android/app/src/main/java/team/misakanet/stylussync/midi/MidiEvent.kt:226-234 | for every integer input, decoding the three encoded fields gives back its low 16 bits |
| MidiEvent.EncodeDecodeIdentity | app-android/app/src/main/java/team/misakanet/stylussync/midi/MidiEvent.java:199-207 | the split is lossless on 0..65535: decode(encode(v)) == v |
| MidiEvent.DecodeEncodeRoundTrip | app-android/app/src/main/java/team/misakanet/stylussync/midi/MidiEvent.java:216-220 | the reverse direction: fields in the encoder's range come back unchanged from encode(decode(f)) |
| MidiEvent.CreateControlChange | app-android/app/src/main/java/team/misakanet/stylussync/midi/MidiEvent.kt:243-249 | the status byte is Control Change plus the channel's low 4 bits, and controller and value are masked to 7 bits |
| MidiEvent.StatusIsBitwiseOr | app-android/app/src/main/java/team/misakanet/stylussync/midi/MidiEvent.kt:243-249 | the status byte `0xB0 or (channel and 0x0F)` is a Control Change status 0xB0..0xBF carrying the channel in its low nibble |
| MidiEvent.FrameHeader | app-android/app/src/main/java/team/misakanet/stylussync/midi/MidiEvent.kt:156-157 | a frame opens with EventType on the control channel, carrying the event type |
| MidiEvent.FieldMessages | app-android/app/src/main/java/team/misakanet/stylussync/midi/MidiEvent.kt:159-162 | one value's three fields go on the data channel, on three consecutive controllers |
| MidiEvent.CoordinateMessages | app-android/app/src/main/java/team/misakanet/stylussync/midi/MidiEvent.kt:159-172 | x, y and pressure take data-channel controllers 1 to 9 in that order |
| MidiEvent.ButtonMessages | app-android/app/src/main/java/team/misakanet/stylussync/midi/MidiEvent.kt:202-209 | ButtonId carries id + 1, and ButtonState carries 127 exactly when the stored flag is 1 and 0 otherwise |
| MidiEvent.FrameTrailer | app-android/app/src/main/java/team/misakanet/stylussync/midi/MidiEvent.kt:174-178 | a frame closes with the sequence number on data controller 10, then DataComplete 127 on the control channel |
| MidiEvent.ToMidiMessages | app-android/app/src/main/java/team/misakanet/stylussync/midi/MidiEvent.kt:136-149 | Disconnect gives no frame and leaves the counter alone; every other event advances the counter by one mod 128, in 12 messages for Motion and 14 for Button |
| MidiEvent.MotionFrameLayout | app-android/app/src/main/java/team/misakanet/stylussync/midi/MidiEvent.java:124-152 | a Motion frame follows the 12-slot layout: EventType 0, nine data fields, the new counter value, DataComplete 127 |
| MidiEvent.ButtonFrameLayout | app-android/app/src/main/java/team/misakanet/stylussync/midi/MidiEvent.java:153-189 | a Button frame follows the 14-slot layout, with ButtonId and ButtonState before the sequence number |
| MidiEvent.FollowsLayoutAppend | app-android/app/src/main/java/team/misakanet/stylussync/midi/MidiEvent.kt:151-178 | the frame is written slot after slot, so layouts of consecutive pieces concatenate |
| MidiReceiver.NewReceiver | client/midi/midi_receiver.py:34-55 | a fresh receiver has every slot 0 and no sequence number seen (-1) |
| MidiReceiver.Decode16 | client/midi/midi_receiver.py:154-156 | the receiver decodes exactly as the sender's decoder does, to a value in 0..65535 |
| MidiReceiver.Decode16InvertsEncoder | client/midi/midi_receiver.py:154-156 | the receiver's decoder inverts the sender's encoder on the low 16 bits |
| MidiReceiver.ParseDataMessage | client/midi/midi_receiver.py:119-140 | a controller in 1..10 overwrites its own data slot and nothing else; any other controller changes nothing |
| MidiReceiver.ParseControlMessage | client/midi/midi_receiver.py:142-152 | controllers 20-22 set their slots, DataComplete with 127 completes the frame, and everything else, DataComplete with another value included, is ignored |
| MidiReceiver.ProcessCompleteEvent | client/midi/midi_receiver.py:158-203 | warns iff a sequence was seen and this one is not its successor mod 128; always remembers it; reports exactly when a callback is set, a touch iff event type 0, otherwise a button with id - 1 and down iff state 127, with the decoded values |
| MidiReceiver.IsControlChange | client/midi/midi_receiver.py:107-108 | `status & 0xF0 == 0xB0` holds exactly for the status bytes 0xB0..0xBF |
| MidiReceiver.OnMidiMessage | client/midi/midi_receiver.py:96-117 | short and non-Control-Change messages are dropped, channel 0 fills data slots, channel 1 goes to control parsing, other channels are dropped; only DataComplete 127 on channel 1 can warn, report or move the last sequence |
| WireRoundTrip.FeedMessages | client/midi/midi_receiver.py:96-117 | feeding a message list yields at most one report and one warning per message and never changes whether a callback is set |
| WireRoundTrip.FeedAppend | client/midi/midi_receiver.py:96-117 | feeding a concatenation is feeding the first part, then the second from the resulting state |
| WireRoundTrip.FeedHeader | client/midi/midi_receiver.py:144-145 | the EventType message stores the event type and nothing else |
| WireRoundTrip.FeedCoordinates | client/midi/midi_receiver.py:119-138 | the nine coordinate messages fill exactly the nine x, y and pressure slots with the encoded fields |
| WireRoundTrip.FeedButton | client/midi/midi_receiver.py:146-149 | ButtonId and ButtonState store the mapped id and state |
| WireRoundTrip.FeedTrailer | client/midi/midi_receiver.py:139-152 | Sequence then DataComplete 127 store the number and complete the frame |
| WireRoundTrip.FeedMotionFrame | app-android/app/src/main/java/team/misakanet/stylussync/midi/MidiEvent.kt:151-178 | a whole Motion frame leaves the receiver with the event's fields buffered and completes exactly once |
| WireRoundTrip.FeedButtonFrame | app-android/app/src/main/java/team/misakanet/stylussync/midi/MidiEvent.kt:180-215 | a whole Button frame leaves the receiver with the event's fields buffered and completes exactly once |
| WireRoundTrip.BufferedReport | client/midi/midi_receiver.py:170-203 | completing a buffered event reports the event's values mod 2^16, its type and the sent sequence number |
| WireRoundTrip.FrameRoundTrip | client/midi/midi_receiver.py:158-203 | one frame yields exactly one report equal to the event (when a callback is set), a warning iff the number is not the successor of the last seen one, and the receiver remembers the sender's counter |
| WireRoundTrip.ButtonIdRecovered | app-android/app/src/main/java/team/misakanet/stylussync/midi/MidiEvent.kt:203-204 | the +1 on the wire and the -1 in the receiver cancel for every id from -1 to 126 |
| WireRoundTrip.ButtonEventRoundTrip | client/midi/midi_receiver.py:174-176 | a button event the app builds with id -1..2 arrives with that id and that down flag |
| WireRoundTrip.ExpectedReports | client/utils/data.py:6-33 | one expected report per event before the first Disconnect, never more than the events |
| WireRoundTrip.StreamRoundTrip | client/midi/midi_receiver.py:158-168 | a receiver that is fresh or in step with the sender's counter reports every sent event in order and never warns |
| WireRoundTrip.FreshStreamRoundTrip | client/midi/midi_receiver.py:55 | a fresh receiver and a fresh sender agree on every stream |
| MidiClient.NewClient | app-android/app/src/main/java/team/misakanet/stylussync/midi/MidiClient.java:25-40 | a new client holds nothing, is not running, has no thread and an empty queue, and leaves the process-wide sequence counter where it was |
| MidiClient.CloseMidiDevice | app-android/app/src/main/java/team/misakanet/stylussync/midi/MidiClient.java:179-197 | afterwards neither port nor device is held, whether or not `close` threw, and nothing else changes |
| MidiClient.Enqueue | app-android/app/src/main/java/team/misakanet/stylussync/midi/MidiClient.java:66-68 | adding an event appends it to the queue and changes nothing else |
| MidiClient.Start | app-android/app/src/main/java/team/misakanet/stylussync/midi/MidiClient.kt:170-177 | start sets the flag and starts a sender only when not already running |
| MidiClient.StartIdempotent | app-android/app/src/main/java/team/misakanet/stylussync/midi/MidiClient.java:202-209 | a second start does nothing |
| MidiClient.Stop | app-android/app/src/main/java/team/misakanet/stylussync/midi/MidiClient.kt:182-198 | stop, when running, clears the flag, queues one Disconnect and releases port and device, and changes nothing else: the device callbacks stay registered; when not running it does nothing |
| MidiClient.StopIdempotent | app-android/app/src/main/java/team/misakanet/stylussync/midi/MidiClient.java:214-230 | a second stop does nothing |
| MidiClient.StopDisconnects | app-android/app/src/main/java/team/misakanet/stylussync/midi/MidiClient.java:227 | after stopping a running client it is disconnected and holds no device |
| MidiClient.SendMidiMessages | app-android/app/src/main/java/team/misakanet/stylussync/midi/MidiClient.kt:242-258 | with no port nothing is sent; otherwise a prefix of the frame goes out, all of it unless a send throws, and an error is reported exactly when one does |
| MidiClient.SendFailureTruncatesFrame | app-android/app/src/main/java/team/misakanet/stylussync/midi/MidiClient.java:280-290 | a send failing at message k leaves the first k messages on the wire, one error, and the counter already advanced |
| MidiClient.HandleTaken | app-android/app/src/main/java/team/misakanet/stylussync/midi/MidiClient.java:242-258 | a Disconnect ends the thread; with no port the event is skipped before conversion and takes no number; otherwise the counter advances and the frame, or a prefix with an error, goes on the wire |
| MidiClient.SenderStep | app-android/app/src/main/java/team/misakanet/stylussync/midi/MidiClient.kt:204-236 | the loop head exits on a cleared flag; `take()` blocks on an empty queue and otherwise handles the head without re-reading the flag |
| MidiClient.Run | app-android/app/src/main/java/team/misakanet/stylussync/midi/MidiClient.java:237-269 | a sender left alone ends exited or blocked on an empty queue, never grows the queue, and does not touch device, port or flag |
| MidiClient.FirstDisconnect | app-android/app/src/main/java/team/misakanet/stylussync/midi/MidiClient.java:245-247 | the position of the first Disconnect in the queue, with none before it |
| MidiClient.RunStopsAtFirstDisconnect | app-android/app/src/main/java/team/misakanet/stylussync/midi/MidiClient.java:240-247 | a running sender consumes the queue up to and including its first Disconnect and exits, leaving what follows; without one it empties the queue and blocks |
| MidiClient.NewClientContinuesSequence | app-android/app/src/main/java/team/misakanet/stylussync/midi/MidiEvent.kt:51 | a client built while the counter stands at n sends its first frame numbered from n, and a receiver that last saw n takes it without a loss warning |
| MidiClient.RunSendsWire | app-android/app/src/main/java/team/misakanet/stylussync/midi/MidiClient.java:254-258 | with a port and no failure the wire gets exactly the frames of the events before the first Disconnect, numbered on from the counter |
| MidiClient.RunWithoutPortDrops | app-android/app/src/main/java/team/misakanet/stylussync/midi/MidiClient.java:249-252 | without a port nothing is sent or reported, and the counter does not move |
| MidiClient.RunCounterIgnoresFaults | app-android/app/src/main/java/team/misakanet/stylussync/midi/MidiClient.java:287-290 | send failures change only the wire and the notices: counter, queue and thread end the same |
| MidiClient.RunStateIgnoresLogs | app-android/app/src/main/java/team/misakanet/stylussync/midi/MidiClient.java:237-269 | the loop's control state does not depend on what was already sent or reported |
| MidiClient.StaleDisconnectAfterRestart | app-android/app/src/main/java/team/misakanet/stylussync/midi/MidiClient.kt:182-198 | a stop that the sender sees at its loop head leaves the Disconnect queued; after a restart the new sender consumes it and exits, so a later event is never sent although the client runs with a port |
| MidiClient.FirstInputPort | app-android/app/src/main/java/team/misakanet/stylussync/midi/MidiClient.kt:124-126 | the first INPUT port, and none exactly when no port is an INPUT |
| MidiClient.FirstOpenableInputPort | app-android/app/src/main/java/team/misakanet/stylussync/midi/MidiClient.java:157-166 | the first INPUT port that opens, and none exactly when no INPUT port opens |
| MidiClient.OpenInputPort | app-android/app/src/main/java/team/misakanet/stylussync/midi/MidiClient.kt:124-131 | without INPUT ports the port is left as it was; Kotlin takes the first INPUT port's result, Java the first INPUT port that opens |
| MidiClient.JavaPortLoop | app-android/app/src/main/java/team/misakanet/stylussync/midi/MidiClient.java:157-166 | the Java loop ends with the first opening INPUT port, or null when every INPUT port failed |
| MidiClient.IsConnected | app-android/app/src/main/java/team/misakanet/stylussync/midi/MidiClient.kt:304-306 | connected means an input port is open, and then a device is held as well |
| MidiClient.OpenMidiDevice | app-android/app/src/main/java/team/misakanet/stylussync/midi/MidiClient.kt:118-142 | a throwing open changes nothing; a null device reports CannotOpenDevice; an open device is held, its port is the one the twin's port rule gives, so without an INPUT port the old port stays; it reports Connected whenever an INPUT port was tried and one is open, and NoInputPort when no port is held |
| MidiClient.TwinsDifferOnFailingPort | app-android/app/src/main/java/team/misakanet/stylussync/midi/MidiClient.java:156-171 | a failing first INPUT port followed by a working one: Kotlin stays disconnected, Java connects to the second |
| MidiClient.FirstUsb | app-android/app/src/main/java/team/misakanet/stylussync/midi/MidiClient.kt:83 | the first USB device, and none exactly when no device is USB |
| MidiClient.FirstUsbNotThrowing | app-android/app/src/main/java/team/misakanet/stylussync/midi/MidiClient.java:100-112 | the first USB device whose open does not throw, and none exactly when there is no such device |
| MidiClient.JavaDeviceLoop | app-android/app/src/main/java/team/misakanet/stylussync/midi/MidiClient.java:100-112 | the Java loop skips throwing devices and stops after the first USB device that opens without throwing |
| MidiClient.InitializeMidi | app-android/app/src/main/java/team/misakanet/stylussync/midi/MidiClient.kt:57-92 | fails with an error iff the MIDI feature or service is missing; registers callbacks only for an empty device list; with devices listed it opens the first USB device (Kotlin) or the first USB device whose open does not throw (Java), and without such a device changes nothing |
| MidiClient.InitializeWithoutUsbNotConnected | app-android/app/src/androidTest/java/team/misakanet/stylussync/midi/MidiClientIntegrationTest.kt:69-74 | with no USB device listed, neither twin connects or takes a device |
| MidiClient.TwinsDifferOnThrowingDevice | app-android/app/src/main/java/team/misakanet/stylussync/midi/MidiClient.java:100-112 | a throwing first USB device followed by a good one: Kotlin holds nothing, Java holds the second |
| MidiClient.DeviceAdded | app-android/app/src/main/java/team/misakanet/stylussync/midi/MidiClient.kt:99-104 | an added device is opened only when callbacks are registered and no device is held |
| MidiClient.StuckWithoutPort | app-android/app/src/main/java/team/misakanet/stylussync/midi/MidiClient.kt:101-103 | a held device without a port makes every later add a no-op, so the client stays disconnected |
| MidiClient.OpenedWithoutPortIsStuck | app-android/app/src/main/java/team/misakanet/stylussync/midi/MidiClient.kt:119-136 | a device whose INPUT ports all fail is held without a port, and then later adds are ignored |
| MidiClient.DeviceRemoved | app-android/app/src/main/java/team/misakanet/stylussync/midi/MidiClient.kt:106-110 | any removal closes what is held and reports Disconnected |
| MidiClient.RemovalIgnoresDevice | app-android/app/src/main/java/team/misakanet/stylussync/midi/MidiClient.java:131-136 | the removal callback has the same effect whichever device was removed |
| CanvasView.NewView | app-android/app/src/main/java/team/misakanet/stylussync/ui/view/CanvasView.java:86-98 | a new view is disabled, has no client, is out of range, and has both side buttons released |
| CanvasView.NewViewIgnoresInput | app-android/app/src/main/java/team/misakanet/stylussync/ui/view/CanvasView.kt:84 | until a client is set, both handlers ignore every input and return false |
| CanvasView.SetMidiClient | app-android/app/src/main/java/team/misakanet/stylussync/ui/view/CanvasView.kt:61-65 | Kotlin enables the view iff the client is non-null; Java always enables it |
| CanvasView.NullClientTwins | app-android/app/src/main/java/team/misakanet/stylussync/ui/view/CanvasView.java:104-107 | after a null client, Java's handler throws on the first event while Kotlin's ignores the input |
| CanvasView.ButtonEvent | app-android/app/src/main/java/team/misakanet/stylussync/ui/view/CanvasView.kt:187 | a button event carries the pointer's values, the id, and a flag that is 1 iff down |
| CanvasView.MotionEvent | app-android/app/src/main/java/team/misakanet/stylussync/ui/view/CanvasView.kt:225 | a motion event carries the pointer's values |
| CanvasView.SideButtons | app-android/app/src/main/java/team/misakanet/stylussync/ui/view/CanvasView.kt:177-197 | nothing unless pointer 0 is a stylus; otherwise both stored states follow the input, and one event per changed button, button 1 first |
| CanvasView.SideButtonsOnlyOnChange | app-android/app/src/main/java/team/misakanet/stylussync/ui/view/CanvasView.java:188-208 | repeating the input just stored queues no side-button event |
| CanvasView.HoverAction | app-android/app/src/main/java/team/misakanet/stylussync/ui/view/CanvasView.kt:223-235 | HOVER_MOVE queues motion, HOVER_ENTER enters InRange with proximity-in, HOVER_EXIT leaves to OutOfRange with proximity-out, others do nothing; only the range status changes |
| CanvasView.TouchAction | app-android/app/src/main/java/team/misakanet/stylussync/ui/view/CanvasView.kt:259-282 | DOWN out of range adds a synthetic proximity-in with pressure 0 and enters FakeInRange before tip-down; UP/CANCEL add tip-up and, only after a synthetic proximity-in, a synthetic proximity-out; only the range status changes |
| CanvasView.PointerStep | app-android/app/src/main/java/team/misakanet/stylussync/ui/view/CanvasView.kt:216-221 | a pointer's side-button events come first, followed exactly by its action's events; the action runs on the view with the new side-button states; only range and button state change |
| CanvasView.Pointers | app-android/app/src/main/java/team/misakanet/stylussync/ui/view/CanvasView.kt:214-215 | the pointer loop never changes the enabled flag, the client or the stylus-only preference |
| CanvasView.NoAcceptedPointer | app-android/app/src/main/java/team/misakanet/stylussync/ui/view/CanvasView.java:228-230 | a loop that meets no accepted pointer changes nothing and queues nothing |
| CanvasView.StylusOnlyIgnoresOtherTools | app-android/app/src/main/java/team/misakanet/stylussync/ui/view/CanvasView.kt:214-215 | in stylus-only mode an input with no stylus pointer is consumed without effect |
| CanvasView.SinglePointer | app-android/app/src/main/java/team/misakanet/stylussync/ui/view/CanvasView.kt:250-257 | one pointer with no side-button change queues exactly its action's events |
| CanvasView.OnGenericMotionEvent | app-android/app/src/main/java/team/misakanet/stylussync/ui/view/CanvasView.kt:212-241 | when it returns, it returns true iff the view is enabled and keeps the enabled flag, client and stylus-only preference; it never throws in Kotlin, and in Java only for an enabled view with no client |
| CanvasView.OnTouchEvent | app-android/app/src/main/java/team/misakanet/stylussync/ui/view/CanvasView.kt:248-288 | when it returns, it returns true iff the view is enabled and keeps the enabled flag, client and stylus-only preference; it never throws in Kotlin, and in Java only for an enabled view with no client |
| CanvasView.Handle | app-android/app/src/main/java/team/misakanet/stylussync/ui/view/CanvasView.kt:212-241 | a disabled view returns false and does nothing; an enabled one runs the loop and returns true; with no client Kotlin drops the events and Java throws iff there is one to queue |
| CanvasView.TapOutOfRange | app-android/app/src/main/java/team/misakanet/stylussync/ui/view/CanvasView.kt:264-279 | a tap without hover queues proximity-in, tip-down, tip-up, proximity-out and ends out of range |
| CanvasView.TapInRange | app-android/app/src/main/java/team/misakanet/stylussync/ui/view/CanvasView.java:278-296 | a tap during a hover queues only tip-down and tip-up and keeps the range |
| CanvasView.HoverSession | app-android/app/src/main/java/team/misakanet/stylussync/ui/view/CanvasView.java:238-249 | enter, move, exit brackets the motion between proximity-in and proximity-out and ends out of range |
| CanvasView.SideButtonBeforeAction | app-android/app/src/main/java/team/misakanet/stylussync/ui/view/CanvasView.kt:256-262 | a stylus side-button press is queued before the action's motion event and is stored |
| ImageManager.CalculateInSampleSize | app-android/app/src/main/java/team/misakanet/stylussync/managers/ImageManager.kt:75-95 | a power of two, at least 1 and within the int range; 1 when the image fits; otherwise the smallest power of two at which the halved dimensions stop reaching the request, so the last doubling was justified |
| ImageManager.ScaledSampleSize | app-android/app/src/main/java/team/misakanet/stylussync/managers/ImageManager.java:71-73 | the sample size is computed iff both requested dimensions are positive, and then meets the promise above |
| ImageManager.Doubling | app-android/app/src/main/java/team/misakanet/stylussync/managers/ImageManager.java:104-107 | a doubling taken by the loop stays inside the int range and leaves every smaller power of two reaching the request |
| ImageManager.SampleSizeIsLargest | app-android/app/src/main/java/team/misakanet/stylussync/managers/ImageManager.java:101-107 | for an image that does not fit, every sample size from the result on loses the request, so the result is the largest power of two whose half still keeps it |
| ImageManager.KeepsAntitone | app-android/app/src/main/java/team/misakanet/stylussync/managers/ImageManager.kt:88-89 | the loop condition, once false, stays false for every larger sample size |
| ImageManager.PowerBelowDouble | app-android/app/src/main/java/team/misakanet/stylussync/managers/ImageManager.kt:90 | doubling skips no power of two |
| ImageManager.PhotoSampledByTwo | app-android/app/src/main/java/team/misakanet/stylussync/managers/ImageManager.kt:84-91 | a 4000x3000 image requested at 1000x1000 has sample size 2 |
| ImageManager.SmallOversizeKeepsOne | app-android/app/src/main/java/team/misakanet/stylussync/managers/ImageManager.java:100-107 | an image that does not fit but whose half already misses the request keeps sample size 1 |
| PermissionManager.IsPermissionGranted | app-android/app/src/main/java/team/misakanet/stylussync/managers/PermissionManager.kt:50-53 | granted iff the request code is 100, the results are non-empty and the first is GRANTED; the first entry is read only when it exists |
| PermissionManager.OnlyFirstResultMatters | app-android/app/src/main/java/team/misakanet/stylussync/managers/PermissionManager.java:66-70 | results that agree on the first entry give the same answer |
| PermissionManager.EmptyResultsDenied | app-android/app/src/main/java/team/misakanet/stylussync/managers/PermissionManager.java:68 | an empty result array is never a grant |
| PermissionManager.WrongCodeDenied | app-android/app/src/test/java/team/misakanet/stylussync/managers/PermissionManagerTest.java:57-62 | another request code is never a grant, whatever the results |
| PermissionManager.UnitTestCases | app-android/app/src/test/java/team/misakanet/stylussync/managers/PermissionManagerTest.kt:42-60 | (100, [GRANTED]) is granted; (100, [DENIED]) and (200, [GRANTED]) are not |

## Left out

- Threads and timing: the sender thread and the main thread are interleaved by hand, one action at a time. `join(1000)` is modelled as returning after its bound without the sender having moved. A sender that outlives the join and races a new thread after `start` is not modelled, because the client holds one thread slot.
- The `openDevice` callback runs at once, inside the call, instead of later on the main handler.
- The Android MIDI service, `MidiManager`, device ports and `send` are an oracle described by `DeviceInfo` and a per-frame fault index, not modelled code.
- `getDeviceName` and the listener's message texts: a notice records only the device id or the error kind.
- `setStatusListener` and the main-handler posts: notices are appended to a log whether or not a listener is set.
- Exceptions in `run` other than the IOException inside `sendMidiMessages`, and `InterruptedException`, are not modelled.
- Coordinate normalisation, the stroke overlay, drawing, preferences and the rest of the view: x, y and pressure arrive as opaque 16-bit values.
- In the Python client: rtmidi port listing and connecting, `close`, the console output, and the callback's string tag. The loss warning is a boolean and a report is a value.
- `ImageManager.loadBitmap` and the stream and decoder calls in `loadBitmapScaled`: only the sample-size guard and computation are modelled. An unset sample size is `None`, not the decoder's default value.
- `PermissionManager.hasStoragePermission` and `requestStoragePermission`: SDK version checks and Android permission calls.
- Constants, preferences, theme and activity code: only the values the core uses are copied as constants. These are the controller numbers, `PERMISSION_READ_STORAGE = 100`, `BITMAP_SAMPLE_SIZE_MIN = 1`, and Android's `PERMISSION_GRANTED = 0` and `PERMISSION_DENIED = -1`.
- MidiClient.StaleDisconnectAfterRestart: this is stated as a property of the model and not reported as a defect. The app calls `stop` only when the activity is destroyed, so the restart it needs does not happen in the app as shipped.
- CanvasView.Pointers: the contract says only what the loop preserves. The events of a whole multi-pointer input are characterised through `SinglePointer`, `NoAcceptedPointer` and the scenario lemmas, not by a closed formula.
