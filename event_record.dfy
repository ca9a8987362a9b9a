/**
 * The `event` object and its constructor. An event is a snapshot taken from
 * a native event when it is built; the only state it shares with other
 * events is the process-wide last click position, which button presses set
 * and every other mouse event reads.
 */
module EventRecord {
  import opened EventTypes
  import opened NativeTranslation

  /** `nano::point<float>`; the coordinates are only copied, never computed on. */
  datatype Point = Point(x: real, y: real)

  const Origin := Point(0.0, 0.0)

  /** `nano::point<int>`, the type the view-local location is returned as. */
  datatype IntPoint = IntPoint(x: int, y: int)

  function ToPoint(p: IntPoint): Point {
    Point(p.x as real, p.y as real)
  }

  /**
   * What the constructor reads from the native event: the CoreGraphics type
   * code, flags, button number, click state and timestamp fields, the
   * location converted into the view, and the two scroll deltas.
   */
  datatype NativeEvent = NativeEvent(
    code: NativeEventType,
    flags: set<NativeFlag>,
    button: NativeButton,
    clickState: int,
    timestamp: nat,
    locationInView: IntPoint,
    deltaX: real,
    deltaY: real)

  /** The event's fields, without the native handle and view pointer it only stores. */
  datatype Event = Event(
    eventType: EventType,
    position: Point,
    clickPosition: Point,
    wheelDelta: Point,
    modifiers: Modifiers,
    clickCount: int,
    timestamp: nat)

  /** The member initialisers every event starts from. */
  const DefaultEvent := Event(EventType.None, Origin, Origin, Origin, NoModifiers, 0, 0)

  const TwoTo31 := 0x8000_0000
  const TwoTo32 := 0x1_0000_0000

  /** `static_cast<int>` of a 64-bit field: the value wrapped into 32 bits. */
  function ToInt32(v: int): (r: int)
    ensures -TwoTo31 <= r < TwoTo31
    ensures (v - r) % TwoTo32 == 0
    ensures -TwoTo31 <= v < TwoTo31 ==> r == v
  {
    (v + TwoTo31) % TwoTo32 - TwoTo31
  }

  /**
   * The event built from native event `n` when the shared last click
   * position is `last`, paired with the new shared value.
   */
  function MakeEvent(n: NativeEvent, last: Point): (r: (Event, Point))
    ensures r.0.eventType == EventTypeFromCG(n.code)
    ensures IsDownEvent(r.0.eventType) ==>
              r.0.position == ToPoint(n.locationInView) && r.0.clickPosition == r.0.position && r.1 == r.0.position
    ensures IsMouseEvent(r.0.eventType) && !IsDownEvent(r.0.eventType) ==>
              r.0.position == ToPoint(n.locationInView) && r.0.clickPosition == last && r.1 == last
    ensures !IsMouseEvent(r.0.eventType) ==>
              r.0.position == Origin && r.0.clickPosition == Origin && r.1 == last
    ensures r.0.wheelDelta == if IsScrollOrDragEvent(r.0.eventType) then Point(n.deltaX, n.deltaY) else Origin
    ensures r.0.clickCount == if IsClickEvent(r.0.eventType) then ToInt32(n.clickState) else 0
    ensures r.0.modifiers == ModifiersFromCG(n.flags, n.button)
    ensures r.0.timestamp == n.timestamp
  {
    var t := EventTypeFromCG(n.code);
    var pos := if IsMouseEvent(t) then ToPoint(n.locationInView) else Origin;
    var click := if !IsMouseEvent(t) then Origin else if IsDownEvent(t) then pos else last;
    var newLast := if IsDownEvent(t) then pos else last;
    var delta := if IsScrollOrDragEvent(t) then Point(n.deltaX, n.deltaY) else Origin;
    var count := if IsClickEvent(t) then ToInt32(n.clickState) else 0;
    (Event(t, pos, click, delta, ModifiersFromCG(n.flags, n.button), count, n.timestamp), newLast)
  }

  // The `is_*_down` accessors of an event.
  predicate IsLeftButtonDown(e: Event) { Has(e.modifiers, LeftMouseDownBit) }
  predicate IsMiddleButtonDown(e: Event) { Has(e.modifiers, MiddleMouseDownBit) }
  predicate IsRightButtonDown(e: Event) { Has(e.modifiers, RightMouseDownBit) }
  predicate IsCommandDown(e: Event) { Has(e.modifiers, CommandBit) }
  predicate IsShiftDown(e: Event) { Has(e.modifiers, ShiftBit) }
  predicate IsCtrlDown(e: Event) { Has(e.modifiers, ControlBit) }
  predicate IsAltDown(e: Event) { Has(e.modifiers, AltBit) }
  predicate IsFunctionDown(e: Event) { Has(e.modifiers, FunctionBit) }

  /** Each accessor of a constructed event answers the question about the native event it names. */
  lemma {:induction false} AccessorsOfMadeEvent(n: NativeEvent, last: Point)
    ensures var e := MakeEvent(n, last).0;
      && (IsShiftDown(e) <==> MaskShift in n.flags)
      && (IsCtrlDown(e) <==> MaskControl in n.flags)
      && (IsAltDown(e) <==> MaskAlternate in n.flags)
      && (IsCommandDown(e) <==> MaskCommand in n.flags)
      && (IsFunctionDown(e) <==> MaskSecondaryFn in n.flags)
      && (IsLeftButtonDown(e) <==> n.button == ButtonLeft)
      && (IsRightButtonDown(e) <==> n.button == ButtonRight)
      && (IsMiddleButtonDown(e) <==> n.button == ButtonCenter)
  {
    AtMostOneButton(n.flags, n.button);
  }

  /**
   * A press followed by any number of events that are not presses: every
   * later mouse event reports the press position as its click position, and
   * non-mouse events neither report nor disturb it.
   */
  lemma {:induction false} ClickPositionPersists(down: NativeEvent, later: seq<NativeEvent>, last: Point)
    requires IsDownEvent(EventTypeFromCG(down.code))
    requires forall k :: 0 <= k < |later| ==> !IsDownEvent(EventTypeFromCG(later[k].code))
    ensures LastClickAfter(later, MakeEvent(down, last).1) == ToPoint(down.locationInView)
    ensures forall k :: 0 <= k < |later| && IsMouseEvent(EventTypeFromCG(later[k].code)) ==>
              MakeEvent(later[k], LastClickAfter(later[..k], MakeEvent(down, last).1)).0.clickPosition
                == ToPoint(down.locationInView)
  {
    var p := MakeEvent(down, last).1;
    forall k | 0 <= k <= |later| ensures LastClickAfter(later[..k], p) == p {
      UnchangedWithoutPress(later[..k], p);
    }
    assert later[..|later|] == later;
  }

  /** The shared last click position after building events for `ns` in order, starting from `last`. */
  function LastClickAfter(ns: seq<NativeEvent>, last: Point): Point
    decreases |ns|
  {
    if ns == [] then last else LastClickAfter(ns[1..], MakeEvent(ns[0], last).1)
  }

  lemma {:induction false} UnchangedWithoutPress(ns: seq<NativeEvent>, p: Point)
    requires forall k :: 0 <= k < |ns| ==> !IsDownEvent(EventTypeFromCG(ns[k].code))
    ensures LastClickAfter(ns, p) == p
  {
    if ns != [] {
      UnchangedWithoutPress(ns[1..], p);
    }
  }

  /** The process-wide `s_click_position` together with the constructor that reads and writes it. */
  class EventSource {
    var lastClick: Point

    constructor ()
      ensures lastClick == Origin
    {
      lastClick := Origin;
    }

    /** `event::event(handle, view)`: start from the defaults and fill in what the type calls for. */
    method NewEvent(n: NativeEvent) returns (e: Event)
      modifies this
      ensures (e, lastClick) == MakeEvent(n, old(lastClick))
    {
      e := DefaultEvent;
      var t := EventTypeFromCG(n.code);
      e := e.(eventType := t);
      if IsMouseEvent(t) {
        e := e.(position := ToPoint(n.locationInView));
        if t == LeftMouseDown || t == RightMouseDown || t == OtherMouseDown {
          e := e.(clickPosition := e.position);
          lastClick := e.position;
        } else {
          e := e.(clickPosition := lastClick);
        }
      }
      if IsScrollOrDragEvent(t) {
        e := e.(wheelDelta := Point(n.deltaX, n.deltaY));
      }
      if IsClickEvent(t) {
        e := e.(clickCount := ToInt32(n.clickState));
      }
      e := e.(modifiers := ModifiersFromCG(n.flags, n.button), timestamp := n.timestamp);
    }
  }
}
