/**
 * The toolkit's event vocabulary: the `event_type` enumeration, the
 * `event_modifiers` bit set, and the pure classification predicates that the
 * event object and the event constructor use.
 */
module EventTypes {

  /** `event_type`, in declaration order. */
  datatype EventType =
    | None
      // mouse events
    | LeftMouseDown | LeftMouseUp | RightMouseDown | RightMouseUp
    | MouseMoved | LeftMouseDragged | RightMouseDragged
    | MouseEntered | MouseExited
      // specialized control devices
    | ScrollWheel | TabletPointer | TabletProximity
    | OtherMouseDown | OtherMouseUp | OtherMouseDragged
      // keyboard events
    | KeyDown | KeyUp | KeyFlagsChanged

  /** `event_modifiers` has `std::uint64_t` as its underlying type. */
  type Modifiers = bv64

  const NoModifiers: Modifiers := 0
  const LeftMouseDownBit: Modifiers := 0x01
  const MiddleMouseDownBit: Modifiers := 0x02
  const RightMouseDownBit: Modifiers := 0x04
  const CommandBit: Modifiers := 0x08
  const ShiftBit: Modifiers := 0x10
  const ControlBit: Modifiers := 0x20
  const AltBit: Modifiers := 0x40
  const FunctionBit: Modifiers := 0x80

  /** Every bit the enumeration names. */
  const AllModifierBits: Modifiers := 0xFF

  /** The three mouse-button bits. */
  const ButtonBits: Modifiers := LeftMouseDownBit | MiddleMouseDownBit | RightMouseDownBit

  /** `(m & bit) != 0`, the test every `is_*_down` accessor performs. */
  predicate Has(m: Modifiers, bit: Modifiers) {
    m & bit != 0
  }

  /**
   * `is_mouse_event`: button presses, releases, drags and moves of all three
   * button kinds. Entering, exiting, scrolling and tablet events are not
   * mouse events in this sense.
   */
  predicate IsMouseEvent(t: EventType) {
    match t
    case LeftMouseDown | LeftMouseUp | RightMouseDown | RightMouseUp
      | MouseMoved | LeftMouseDragged | RightMouseDragged
      | OtherMouseDown | OtherMouseUp | OtherMouseDragged => true
    case _ => false
  }

  /** `is_scroll_or_drag_event`: the events that carry a wheel or movement delta. */
  predicate IsScrollOrDragEvent(t: EventType) {
    match t
    case ScrollWheel | MouseMoved | LeftMouseDragged | RightMouseDragged | OtherMouseDragged => true
    case _ => false
  }

  /** `is_click_event`: presses and releases of any button. */
  predicate IsClickEvent(t: EventType) {
    match t
    case LeftMouseDown | LeftMouseUp | RightMouseDown | RightMouseUp | OtherMouseDown | OtherMouseUp => true
    case _ => false
  }

  /** `is_key_event`: key down, key up and modifier-flag changes. */
  predicate IsKeyEvent(t: EventType) {
    match t
    case KeyDown | KeyUp | KeyFlagsChanged => true
    case _ => false
  }

  /** The three button-press types; the event constructor records a click position for these. */
  predicate IsDownEvent(t: EventType) {
    t == LeftMouseDown || t == RightMouseDown || t == OtherMouseDown
  }

  /**
   * How the four classifications relate: clicks are mouse events, so are the
   * button-press types; a scroll-or-drag event is a mouse event unless it is a
   * wheel event; key events are never mouse, click or scroll events; and
   * `none`, entering, exiting and tablet events fall in no class at all.
   */
  lemma ClassificationStructure(t: EventType)
    ensures IsClickEvent(t) ==> IsMouseEvent(t)
    ensures IsDownEvent(t) ==> IsClickEvent(t)
    ensures IsScrollOrDragEvent(t) ==> IsMouseEvent(t) || t == ScrollWheel
    ensures IsMouseEvent(t) ==> IsClickEvent(t) || IsScrollOrDragEvent(t)
    ensures IsKeyEvent(t) ==> !IsMouseEvent(t) && !IsScrollOrDragEvent(t) && !IsClickEvent(t)
    ensures t in {None, MouseEntered, MouseExited, TabletPointer, TabletProximity} <==>
              !IsMouseEvent(t) && !IsScrollOrDragEvent(t) && !IsKeyEvent(t)
  {
  }
}
