/**
 * Translation of a CoreGraphics event into the toolkit's vocabulary:
 * `get_event_type_from_cg_event` and `get_event_modifiers_from_cg_event`.
 *
 * The CoreGraphics event-type codes, flag masks and button numbers are
 * defined in Apple's headers, which are not part of this model; they are
 * modelled as enumerations, so distinct codes and distinct single flag bits
 * are distinct values by construction.
 */
module NativeTranslation {
  import opened Wrappers
  import opened EventTypes

  /** `CGEventType`: the sixteen codes the translation names, and every other code. */
  datatype NativeEventType =
    | CGLeftMouseDown | CGLeftMouseUp | CGRightMouseDown | CGRightMouseUp
    | CGMouseMoved | CGLeftMouseDragged | CGRightMouseDragged
    | CGKeyDown | CGKeyUp | CGFlagsChanged
    | CGScrollWheel | CGTabletPointer | CGTabletProximity
    | CGOtherMouseDown | CGOtherMouseUp | CGOtherMouseDragged
    | CGUnlisted(code: int)

  /** A single bit of `CGEventFlags`: the five masks the translation tests, and any other bit. */
  datatype NativeFlag =
    | MaskShift | MaskControl | MaskAlternate | MaskCommand | MaskSecondaryFn
    | MaskOther(bit: nat)

  /** The value of the `kCGMouseEventButtonNumber` field. */
  datatype NativeButton = ButtonLeft | ButtonRight | ButtonCenter | ButtonNumber(n: int)

  /** `get_event_type_from_cg_event`: a switch with a `none` default. */
  function EventTypeFromCG(code: NativeEventType): (t: EventType)
    ensures t != MouseEntered && t != MouseExited
    ensures t == EventType.None <==> code.CGUnlisted?
  {
    match code
    case CGLeftMouseDown => LeftMouseDown
    case CGLeftMouseUp => LeftMouseUp
    case CGRightMouseDown => RightMouseDown
    case CGRightMouseUp => RightMouseUp
    case CGMouseMoved => MouseMoved
    case CGLeftMouseDragged => LeftMouseDragged
    case CGRightMouseDragged => RightMouseDragged
    case CGKeyDown => KeyDown
    case CGKeyUp => KeyUp
    case CGFlagsChanged => KeyFlagsChanged
    case CGScrollWheel => ScrollWheel
    case CGTabletPointer => TabletPointer
    case CGTabletProximity => TabletProximity
    case CGOtherMouseDown => OtherMouseDown
    case CGOtherMouseUp => OtherMouseUp
    case CGOtherMouseDragged => OtherMouseDragged
    case CGUnlisted(_) => EventType.None
  }

  /**
   * Reference table for the translation, read in the other direction: the
   * CoreGraphics code each toolkit type comes from. `none`, entering and
   * exiting have none.
   */
  function NativeCodeFor(t: EventType): Option<NativeEventType> {
    match t
    case LeftMouseDown => Some(CGLeftMouseDown)
    case LeftMouseUp => Some(CGLeftMouseUp)
    case RightMouseDown => Some(CGRightMouseDown)
    case RightMouseUp => Some(CGRightMouseUp)
    case MouseMoved => Some(CGMouseMoved)
    case LeftMouseDragged => Some(CGLeftMouseDragged)
    case RightMouseDragged => Some(CGRightMouseDragged)
    case KeyDown => Some(CGKeyDown)
    case KeyUp => Some(CGKeyUp)
    case KeyFlagsChanged => Some(CGFlagsChanged)
    case ScrollWheel => Some(CGScrollWheel)
    case TabletPointer => Some(CGTabletPointer)
    case TabletProximity => Some(CGTabletProximity)
    case OtherMouseDown => Some(CGOtherMouseDown)
    case OtherMouseUp => Some(CGOtherMouseUp)
    case OtherMouseDragged => Some(CGOtherMouseDragged)
    case _ => Option.None
  }

  /**
   * The translation and the table agree in both directions: every listed
   * code maps to the type the table pairs it with, every type the table
   * lists is reached from exactly that code, and the sixteen listed codes
   * map to sixteen different types.
   */
  lemma EventTypeTableRoundTrip(code: NativeEventType, t: EventType)
    ensures !code.CGUnlisted? ==> NativeCodeFor(EventTypeFromCG(code)) == Some(code)
    ensures NativeCodeFor(t).Some? ==> EventTypeFromCG(NativeCodeFor(t).value) == t
    ensures NativeCodeFor(t).None? <==> t in {EventType.None, MouseEntered, MouseExited}
  {
  }

  /** Two different listed codes never translate to the same type. */
  lemma EventTypeFromCGInjective(a: NativeEventType, b: NativeEventType)
    requires !a.CGUnlisted? && !b.CGUnlisted?
    requires EventTypeFromCG(a) == EventTypeFromCG(b)
    ensures a == b
  {
    EventTypeTableRoundTrip(a, EventTypeFromCG(a));
    EventTypeTableRoundTrip(b, EventTypeFromCG(b));
  }

  /** The modifier bit `get_event_modifiers_from_cg_event` adds for each button number. */
  function ButtonBit(b: NativeButton): Modifiers {
    match b
    case ButtonLeft => LeftMouseDownBit
    case ButtonRight => RightMouseDownBit
    case ButtonCenter => MiddleMouseDownBit
    case ButtonNumber(_) => NoModifiers
  }

  /** The keyboard part of the translation: one `if` per flag mask, in source order. */
  function KeyModifiersFromFlags(flags: set<NativeFlag>): (m: Modifiers)
    ensures Has(m, ShiftBit) <==> MaskShift in flags
    ensures Has(m, ControlBit) <==> MaskControl in flags
    ensures Has(m, AltBit) <==> MaskAlternate in flags
    ensures Has(m, CommandBit) <==> MaskCommand in flags
    ensures Has(m, FunctionBit) <==> MaskSecondaryFn in flags
    ensures m & ButtonBits == 0
    ensures m & !AllModifierBits == 0
  {
    var m0 := NoModifiers;
    var m1 := if MaskShift in flags then m0 | ShiftBit else m0;
    var m2 := if MaskControl in flags then m1 | ControlBit else m1;
    var m3 := if MaskAlternate in flags then m2 | AltBit else m2;
    var m4 := if MaskCommand in flags then m3 | CommandBit else m3;
    if MaskSecondaryFn in flags then m4 | FunctionBit else m4
  }

  /**
   * `get_event_modifiers_from_cg_event`: the keyboard bits, then at most one
   * button bit chosen by the button number alone.
   */
  function ModifiersFromCG(flags: set<NativeFlag>, button: NativeButton): (m: Modifiers)
    ensures Has(m, ShiftBit) <==> MaskShift in flags
    ensures Has(m, ControlBit) <==> MaskControl in flags
    ensures Has(m, AltBit) <==> MaskAlternate in flags
    ensures Has(m, CommandBit) <==> MaskCommand in flags
    ensures Has(m, FunctionBit) <==> MaskSecondaryFn in flags
    ensures m & ButtonBits == ButtonBit(button)
    ensures m & !AllModifierBits == 0
  {
    KeyModifiersFromFlags(flags) | ButtonBit(button)
  }

  /** Only the button number decides the button bits, and no number sets two of them. */
  lemma AtMostOneButton(flags: set<NativeFlag>, button: NativeButton)
    ensures var m := ModifiersFromCG(flags, button);
      (Has(m, LeftMouseDownBit) <==> button == ButtonLeft)
      && (Has(m, RightMouseDownBit) <==> button == ButtonRight)
      && (Has(m, MiddleMouseDownBit) <==> button == ButtonCenter)
      && (button.ButtonNumber? ==> m & ButtonBits == 0)
  {
    var m := ModifiersFromCG(flags, button);
    assert m & ButtonBits == ButtonBit(button);
    match button
    case ButtonLeft =>
      assert m & LeftMouseDownBit == (m & ButtonBits) & LeftMouseDownBit;
    case ButtonRight =>
      assert m & RightMouseDownBit == (m & ButtonBits) & RightMouseDownBit;
    case ButtonCenter =>
      assert m & MiddleMouseDownBit == (m & ButtonBits) & MiddleMouseDownBit;
    case ButtonNumber(_) =>
  }
}
