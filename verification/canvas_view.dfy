/**
 * The touch-to-event generator (`CanvasView`, in its Kotlin and Java twins):
 * the proximity state machine that turns hover and touch input into Motion
 * and Button events, with synthetic proximity events around touches that
 * arrive without a hover, and edge detection for the two stylus side
 * buttons.
 *
 * Coordinates and pressure reach the model already normalised, as opaque
 * 16-bit values; the normalisation and the stroke overlay are not modelled.
 */
module CanvasView {
  import opened Bits
  import opened MidiEvent
  import MidiClient

  /** `InRangeStatus`. `FakeInRange` marks a proximity the view announced itself because a touch came without a hover. */
  datatype Range = OutOfRange | InRange | FakeInRange

  /** One pointer of a `MotionEvent`: whether its tool is a stylus, and its normalised position and pressure. */
  datatype Pointer = Pointer(isStylus: bool, x: Int16, y: Int16, pressure: Int16)

  /** The masked action of a `MotionEvent`; `OtherAction` stands for every action neither handler reacts to. */
  datatype Action = HoverMove | HoverEnter | HoverExit | Move | Down | Up | Cancel | OtherAction

  /** A `MotionEvent`: the action, the pointers, and the pressed state of the two stylus side buttons. */
  datatype Input = Input(action: Action, pointers: seq<Pointer>, button1: bool, button2: bool)

  /**
   * The view's state: whether it is enabled, whether a MIDI client is set,
   * the stylus-only preference, the range status, and the last seen state of
   * the two side buttons.
   */
  datatype View = View(enabled: bool, hasClient: bool, stylusOnly: bool, range: Range, side1: bool, side2: bool)

  /** A freshly constructed view: disabled, no client, out of range, both side buttons released. */
  function NewView(stylusOnly: bool): (v: View)
    ensures !v.enabled && !v.hasClient && v.range == OutOfRange && !v.side1 && !v.side2
    ensures v.stylusOnly == stylusOnly
  {
    View(false, false, stylusOnly, OutOfRange, false, false)
  }

  /**
   * Setting the client. Kotlin's property setter enables the view exactly
   * when the client is non-null; Java's `setMidiClient` always enables it.
   */
  function SetMidiClient(twin: MidiClient.Twin, v: View, hasClient: bool): (w: View)
    ensures w.hasClient == hasClient
    ensures twin == MidiClient.Kotlin ==> (w.enabled <==> hasClient)
    ensures twin == MidiClient.Java ==> w.enabled
    ensures w.(enabled := v.enabled, hasClient := v.hasClient) == v
  {
    match twin
    case Kotlin => v.(hasClient := hasClient, enabled := hasClient)
    case Java => v.(hasClient := hasClient, enabled := true)
  }

  /** A view state together with the events it has decided to queue so far. */
  datatype Step = Step(view: View, events: seq<Event>)

  /** `MidiEvent(TYPE_BUTTON, x, y, pressure, id, down)`. */
  function ButtonEvent(x: Int16, y: Int16, pressure: Int16, id: Int32, down: bool): (e: Event)
    ensures e.kind == TypeButton && e.x == x && e.y == y && e.pressure == pressure
    ensures -0x80 <= id < 0x80 ==> e.button == id
    ensures e.buttonDown == 1 <==> down
  {
    NewButtonEvent(TypeButton, x, y, pressure, id, down)
  }

  /** `MidiEvent(TYPE_MOTION, x, y, pressure)`. */
  function MotionEvent(p: Pointer): (e: Event)
    ensures e.kind == TypeMotion && e.x == p.x && e.y == p.y && e.pressure == p.pressure
  {
    NewMotionEvent(TypeMotion, p.x, p.y, p.pressure)
  }

  /**
   * `detectAndSendSidButtons`: nothing unless pointer 0 is a stylus;
   * otherwise each side button whose pressed state differs from the stored
   * one is stored and queued as a Button event with id 1 or 2, button 1
   * first.
   */
  function SideButtons(v: View, input: Input, p: Pointer): (s: Step)
    ensures input.pointers == [] || !input.pointers[0].isStylus ==> s == Step(v, [])
    ensures input.pointers != [] && input.pointers[0].isStylus ==>
      s.view.side1 == input.button1 && s.view.side2 == input.button2
    ensures s.view.(side1 := v.side1, side2 := v.side2) == v
    ensures |s.events| == (if s.view.side1 != v.side1 then 1 else 0) + (if s.view.side2 != v.side2 then 1 else 0)
    ensures s.view.side1 != v.side1 ==> s.events[0] == ButtonEvent(p.x, p.y, p.pressure, 1, s.view.side1)
    ensures s.view.side2 != v.side2 ==> s.events[|s.events| - 1] == ButtonEvent(p.x, p.y, p.pressure, 2, s.view.side2)
  {
    if input.pointers == [] || !input.pointers[0].isStylus then Step(v, [])
    else
      var first := if input.button1 != v.side1 then [ButtonEvent(p.x, p.y, p.pressure, 1, input.button1)] else [];
      var second := if input.button2 != v.side2 then [ButtonEvent(p.x, p.y, p.pressure, 2, input.button2)] else [];
      Step(v.(side1 := input.button1, side2 := input.button2), first + second)
  }

  /**
   * The hover actions of `onGenericMotionEvent`: HOVER_MOVE queues a Motion
   * event and keeps the range; HOVER_ENTER enters InRange and queues
   * proximity-in (button -1 down); HOVER_EXIT leaves to OutOfRange and
   * queues proximity-out (button -1 up). Other actions do nothing.
   */
  function HoverAction(v: View, action: Action, p: Pointer): (s: Step)
    ensures s.view.(range := v.range) == v
    ensures action == HoverMove ==> s == Step(v, [MotionEvent(p)])
    ensures action == HoverEnter ==> s == Step(v.(range := InRange), [ButtonEvent(p.x, p.y, p.pressure, -1, true)])
    ensures action == HoverExit ==> s == Step(v.(range := OutOfRange), [ButtonEvent(p.x, p.y, p.pressure, -1, false)])
    ensures !(action.HoverMove? || action.HoverEnter? || action.HoverExit?) ==> s == Step(v, [])
  {
    match action
    case HoverMove => Step(v, [MotionEvent(p)])
    case HoverEnter => Step(v.(range := InRange), [ButtonEvent(p.x, p.y, p.pressure, -1, true)])
    case HoverExit => Step(v.(range := OutOfRange), [ButtonEvent(p.x, p.y, p.pressure, -1, false)])
    case _ => Step(v, [])
  }

  /**
   * The touch actions of `onTouchEvent`. MOVE queues a Motion event. DOWN
   * out of range first announces a synthetic proximity-in with pressure 0
   * and enters FakeInRange, then queues tip-down (button 0). UP and CANCEL
   * queue tip-up, then, only after a synthetic proximity-in, a synthetic
   * proximity-out with pressure 0, returning to OutOfRange.
   */
  function TouchAction(v: View, action: Action, p: Pointer): (s: Step)
    ensures s.view.(range := v.range) == v
    ensures action == Move ==> s == Step(v, [MotionEvent(p)])
    ensures action == Down ==>
      && s.view == v.(range := if v.range == OutOfRange then FakeInRange else v.range)
      && s.events == (if v.range == OutOfRange then [ButtonEvent(p.x, p.y, 0, -1, true)] else [])
                     + [ButtonEvent(p.x, p.y, p.pressure, 0, true)]
    ensures action.Up? || action.Cancel? ==>
      && s.view == v.(range := if v.range == FakeInRange then OutOfRange else v.range)
      && s.events == [ButtonEvent(p.x, p.y, p.pressure, 0, false)]
                     + (if v.range == FakeInRange then [ButtonEvent(p.x, p.y, 0, -1, false)] else [])
    ensures !(action.Move? || action.Down? || action.Up? || action.Cancel?) ==> s == Step(v, [])
  {
    match action
    case Move => Step(v, [MotionEvent(p)])
    case Down =>
      var synthetic := if v.range == OutOfRange then [ButtonEvent(p.x, p.y, 0, -1, true)] else [];
      var range := if v.range == OutOfRange then FakeInRange else v.range;
      Step(v.(range := range), synthetic + [ButtonEvent(p.x, p.y, p.pressure, 0, true)])
    case Up => TouchRelease(v, p)
    case Cancel => TouchRelease(v, p)
    case _ => Step(v, [])
  }

  /** The shared UP / CANCEL branch. */
  function TouchRelease(v: View, p: Pointer): Step {
    var synthetic := if v.range == FakeInRange then [ButtonEvent(p.x, p.y, 0, -1, false)] else [];
    var range := if v.range == FakeInRange then OutOfRange else v.range;
    Step(v.(range := range), [ButtonEvent(p.x, p.y, p.pressure, 0, false)] + synthetic)
  }

  /** Which handler is running: `onGenericMotionEvent` (hover) or `onTouchEvent` (touch). */
  datatype Handler = Generic | Touch

  /** A pointer is looked at unless the view accepts only a stylus and its tool is something else. */
  predicate Accepted(v: View, p: Pointer) {
    !v.stylusOnly || p.isStylus
  }

  /** The `when (event.actionMasked)` block of the running handler. */
  function HandlerAction(handler: Handler, v: View, action: Action, p: Pointer): Step {
    if handler == Generic then HoverAction(v, action, p) else TouchAction(v, action, p)
  }

  /**
   * One accepted pointer: its side-button events first, then the events of
   * its action, which runs on the view with the new side-button states.
   */
  function PointerStep(handler: Handler, v: View, input: Input, p: Pointer): (s: Step)
    ensures SideButtons(v, input, p).events <= s.events
    ensures var b := SideButtons(v, input, p);
      var a := HandlerAction(handler, b.view, input.action, p);
      s.view == a.view && s.events[|b.events|..] == a.events
    ensures s.view.(range := v.range, side1 := v.side1, side2 := v.side2) == v
  {
    var b := SideButtons(v, input, p);
    var a := HandlerAction(handler, b.view, input.action, p);
    Step(a.view, b.events + a.events)
  }

  /** The pointer loop, from pointer `i` on; a pointer that is not accepted is skipped. */
  function Pointers(handler: Handler, v: View, input: Input, i: nat): (s: Step)
    requires i <= |input.pointers|
    ensures s.view.enabled == v.enabled && s.view.hasClient == v.hasClient && s.view.stylusOnly == v.stylusOnly
    decreases |input.pointers| - i
  {
    if i == |input.pointers| then Step(v, [])
    else
      var p := input.pointers[i];
      if !Accepted(v, p) then Pointers(handler, v, input, i + 1)
      else
        var s := PointerStep(handler, v, input, p);
        var rest := Pointers(handler, s.view, input, i + 1);
        Step(rest.view, s.events + rest.events)
  }

  /** What a handler call did: the view afterwards, the events added to the client's queue, and the returned flag; or an uncaught exception. */
  datatype Outcome = Handled(view: View, queued: seq<Event>, consumed: bool) | Crashed

  /**
   * `onGenericMotionEvent` / `onTouchEvent`. A disabled view does nothing
   * and returns false. An enabled view runs the pointer loop and returns
   * true. Each event goes to the client's queue; with no client, Kotlin's
   * safe call drops it, while Java dereferences null and the first attempted
   * add throws.
   */
  function Handle(twin: MidiClient.Twin, handler: Handler, v: View, input: Input): (o: Outcome)
    ensures !v.enabled ==> o == Handled(v, [], false)
    ensures v.enabled && v.hasClient ==> o == Handled(Pointers(handler, v, input, 0).view, Pointers(handler, v, input, 0).events, true)
    ensures o.Crashed? <==> twin == MidiClient.Java && v.enabled && !v.hasClient && Pointers(handler, v, input, 0).events != []
    ensures v.enabled && !v.hasClient && twin == MidiClient.Kotlin ==> o.Handled? && o.queued == [] && o.consumed
  {
    if !v.enabled then Handled(v, [], false)
    else
      var s := Pointers(handler, v, input, 0);
      if v.hasClient then Handled(s.view, s.events, true)
      else match twin
        case Kotlin => Handled(s.view, [], true)
        case Java => if s.events == [] then Handled(s.view, [], true) else Crashed
  }

  /**
   * `onGenericMotionEvent`: the hover handler. It returns true exactly when
   * the view is enabled, keeps the enabled flag, the client and the
   * stylus-only preference, and in the Kotlin twin never throws.
   */
  function OnGenericMotionEvent(twin: MidiClient.Twin, v: View, input: Input): (o: Outcome)
    ensures o.Handled? ==> (o.consumed <==> v.enabled)
    ensures o.Handled? ==> o.view.enabled == v.enabled && o.view.hasClient == v.hasClient && o.view.stylusOnly == v.stylusOnly
    ensures twin == MidiClient.Kotlin ==> o.Handled?
    ensures o.Crashed? ==> v.enabled && !v.hasClient
  {
    Handle(twin, Generic, v, input)
  }

  /**
   * `onTouchEvent`: the touch handler. It returns true exactly when the view
   * is enabled, keeps the enabled flag, the client and the stylus-only
   * preference, and in the Kotlin twin never throws.
   */
  function OnTouchEvent(twin: MidiClient.Twin, v: View, input: Input): (o: Outcome)
    ensures o.Handled? ==> (o.consumed <==> v.enabled)
    ensures o.Handled? ==> o.view.enabled == v.enabled && o.view.hasClient == v.hasClient && o.view.stylusOnly == v.stylusOnly
    ensures twin == MidiClient.Kotlin ==> o.Handled?
    ensures o.Crashed? ==> v.enabled && !v.hasClient
  {
    Handle(twin, Touch, v, input)
  }

  /** Until a client is set, a new view ignores every input in both handlers and both twins. */
  lemma NewViewIgnoresInput(twin: MidiClient.Twin, handler: Handler, stylusOnly: bool, input: Input)
    ensures Handle(twin, handler, NewView(stylusOnly), input) == Handled(NewView(stylusOnly), [], false)
  {
  }

  /** A pointer loop that meets no accepted pointer changes nothing and queues nothing. */
  lemma {:induction false} NoAcceptedPointer(handler: Handler, v: View, input: Input, i: nat)
    requires i <= |input.pointers|
    requires forall j | i <= j < |input.pointers| :: !Accepted(v, input.pointers[j])
    ensures Pointers(handler, v, input, i) == Step(v, [])
    decreases |input.pointers| - i
  {
    if i < |input.pointers| {
      NoAcceptedPointer(handler, v, input, i + 1);
    }
  }

  /** In stylus-only mode an input without any stylus pointer queues nothing and changes nothing. */
  lemma StylusOnlyIgnoresOtherTools(twin: MidiClient.Twin, handler: Handler, v: View, input: Input)
    requires v.enabled && v.stylusOnly
    requires forall j | 0 <= j < |input.pointers| :: !input.pointers[j].isStylus
    ensures Handle(twin, handler, v, input) == Handled(v, [], true)
  {
    NoAcceptedPointer(handler, v, input, 0);
  }

  /** The events of a single-pointer input, with side buttons unchanged. */
  lemma SinglePointer(handler: Handler, v: View, input: Input, p: Pointer)
    requires input.pointers == [p] && Accepted(v, p)
    requires !p.isStylus || (input.button1 == v.side1 && input.button2 == v.side2)
    ensures var a := if handler == Generic then HoverAction(v, input.action, p) else TouchAction(v, input.action, p);
      Pointers(handler, v, input, 0) == a
  {
    var a := if handler == Generic then HoverAction(v, input.action, p) else TouchAction(v, input.action, p);
    assert SideButtons(v, input, p) == Step(v, []);
    assert [] + a.events == a.events;
  }

  /**
   * A touch without a preceding hover: DOWN then UP of one finger on a view
   * out of range queues proximity-in (pressure 0), tip-down, tip-up and
   * proximity-out (pressure 0), in that order, and leaves the view out of
   * range again.
   */
  lemma TapOutOfRange(v: View, p: Pointer, q: Pointer)
    requires v.enabled && v.hasClient && v.range == OutOfRange && Accepted(v, p) && Accepted(v, q)
    requires !p.isStylus && !q.isStylus
    ensures var down := Handle(MidiClient.Kotlin, Touch, v, Input(Down, [p], false, false));
      && down.Handled? && down.view.range == FakeInRange
      && down.queued == [ButtonEvent(p.x, p.y, 0, -1, true), ButtonEvent(p.x, p.y, p.pressure, 0, true)]
      && var up := Handle(MidiClient.Kotlin, Touch, down.view, Input(Up, [q], false, false));
      && up.Handled? && up.view == v
      && up.queued == [ButtonEvent(q.x, q.y, q.pressure, 0, false), ButtonEvent(q.x, q.y, 0, -1, false)]
  {
    SinglePointer(Touch, v, Input(Down, [p], false, false), p);
    var w := v.(range := FakeInRange);
    SinglePointer(Touch, w, Input(Up, [q], false, false), q);
  }

  /**
   * A touch inside a hover (InRange): DOWN and UP queue only tip-down and
   * tip-up, and the range status is left as it was.
   */
  lemma TapInRange(v: View, p: Pointer, q: Pointer)
    requires v.enabled && v.hasClient && v.range == InRange && Accepted(v, p) && Accepted(v, q)
    requires !p.isStylus && !q.isStylus
    ensures var down := Handle(MidiClient.Kotlin, Touch, v, Input(Down, [p], false, false));
      && down.Handled? && down.view == v && down.queued == [ButtonEvent(p.x, p.y, p.pressure, 0, true)]
      && var up := Handle(MidiClient.Kotlin, Touch, down.view, Input(Up, [q], false, false));
      && up.Handled? && up.view == v && up.queued == [ButtonEvent(q.x, q.y, q.pressure, 0, false)]
  {
    SinglePointer(Touch, v, Input(Down, [p], false, false), p);
    SinglePointer(Touch, v, Input(Up, [q], false, false), q);
  }

  /**
   * A hover that enters, moves and exits brackets its Motion events between
   * proximity-in and proximity-out and ends out of range.
   */
  lemma HoverSession(v: View, a: Pointer, b: Pointer, c: Pointer)
    requires v.enabled && v.hasClient && Accepted(v, a) && Accepted(v, b) && Accepted(v, c)
    requires !a.isStylus && !b.isStylus && !c.isStylus
    ensures var enter := Handle(MidiClient.Java, Generic, v, Input(HoverEnter, [a], false, false));
      && enter.Handled? && enter.view.range == InRange
      && enter.queued == [ButtonEvent(a.x, a.y, a.pressure, -1, true)]
      && var move := Handle(MidiClient.Java, Generic, enter.view, Input(HoverMove, [b], false, false));
      && move.Handled? && move.view.range == InRange && move.queued == [MotionEvent(b)]
      && var exit := Handle(MidiClient.Java, Generic, move.view, Input(HoverExit, [c], false, false));
      && exit.Handled? && exit.view == v.(range := OutOfRange)
      && exit.queued == [ButtonEvent(c.x, c.y, c.pressure, -1, false)]
  {
    SinglePointer(Generic, v, Input(HoverEnter, [a], false, false), a);
    var w := v.(range := InRange);
    SinglePointer(Generic, w, Input(HoverMove, [b], false, false), b);
    SinglePointer(Generic, w, Input(HoverExit, [c], false, false), c);
  }

  /**
   * A stylus pointer with a side-button change: the side-button event is
   * queued before the action's own event, and the stored button state
   * follows the input.
   */
  lemma SideButtonBeforeAction(v: View, p: Pointer)
    requires v.enabled && v.hasClient && p.isStylus && !v.side1 && !v.side2
    ensures var o := Handle(MidiClient.Kotlin, Touch, v, Input(Move, [p], true, false));
      && o.Handled? && o.view.side1 && !o.view.side2
      && o.queued == [ButtonEvent(p.x, p.y, p.pressure, 1, true), MotionEvent(p)]
  {
    var input := Input(Move, [p], true, false);
    var w := v.(side1 := true);
    assert SideButtons(v, input, p) == Step(w, [ButtonEvent(p.x, p.y, p.pressure, 1, true)]);
    assert TouchAction(w, Move, p) == Step(w, [MotionEvent(p)]);
    assert PointerStep(Touch, v, input, p) == Step(w, [ButtonEvent(p.x, p.y, p.pressure, 1, true), MotionEvent(p)]);
    assert Pointers(Touch, w, input, 1) == Step(w, []);
    assert Pointers(Touch, v, input, 0) == Step(w, [ButtonEvent(p.x, p.y, p.pressure, 1, true), MotionEvent(p)] + []);
  }

  /**
   * Side buttons are reported only on a change: repeating an input whose
   * buttons were just stored queues no side-button event.
   */
  lemma {:induction false} SideButtonsOnlyOnChange(v: View, input: Input, p: Pointer)
    ensures var s := SideButtons(v, input, p);
      SideButtons(s.view, input, p) == Step(s.view, [])
  {
  }

  /**
   * Java's `setMidiClient(null)` enables the view without a client, and the
   * first event it would queue throws; Kotlin's setter leaves the view
   * disabled, so the same input is ignored.
   */
  lemma NullClientTwins(v: View, p: Pointer)
    requires Accepted(v, p) && !p.isStylus
    ensures Handle(MidiClient.Java, Generic, SetMidiClient(MidiClient.Java, v, false), Input(HoverMove, [p], false, false)).Crashed?
    ensures var w := SetMidiClient(MidiClient.Kotlin, v, false);
      Handle(MidiClient.Kotlin, Generic, w, Input(HoverMove, [p], false, false)) == Handled(w, [], false)
  {
    var w := SetMidiClient(MidiClient.Java, v, false);
    SinglePointer(Generic, w, Input(HoverMove, [p], false, false), p);
  }
}
