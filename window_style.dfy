/**
 * `window_flags` and its translation into an AppKit window style mask,
 * once when the window object is created and again in `set_flags`.
 */
module WindowStyle {

  /** `window_flags` is a plain `enum class` over `int`. */
  type WindowFlags = bv32

  const BorderLess: WindowFlags := 0
  const Titled: WindowFlags := 0x01
  const Closable: WindowFlags := 0x02
  const Minimizable: WindowFlags := 0x04
  const Maximizable: WindowFlags := 0x08
  const Resizable: WindowFlags := 0x10
  const Panel: WindowFlags := 0x20
  const FullSizeContentView: WindowFlags := 0x40
  const DefaultFlags: WindowFlags := Titled | Closable | Minimizable | Maximizable | Resizable

  /** The style mask is an `unsigned long`. */
  type StyleMask = bv64

  const NSTitled: StyleMask := 0x1
  const NSClosable: StyleMask := 0x2
  const NSMiniaturizable: StyleMask := 0x4
  const NSResizable: StyleMask := 0x8
  const NSUtilityWindow: StyleMask := 0x10
  const NSFullSizeContentView: StyleMask := 0x8000

  /** `(flags & f) != 0`. */
  predicate HasFlag(flags: WindowFlags, f: WindowFlags) {
    flags & f != 0
  }

  /** Every bit either translation can produce. */
  const CreationBits: StyleMask :=
    NSTitled | NSClosable | NSMiniaturizable | NSResizable | NSUtilityWindow | NSFullSizeContentView

  /** The four bits `set_flags` can produce. */
  const SetFlagsBits: StyleMask := NSTitled | NSClosable | NSMiniaturizable | NSResizable

  /** The style mask `set_flags` sends: titled, closable, minimizable and resizable only. */
  function SetFlagsStyleMask(flags: WindowFlags): (mask: StyleMask)
    ensures mask & NSTitled != 0 <==> HasFlag(flags, Titled)
    ensures mask & NSClosable != 0 <==> HasFlag(flags, Closable)
    ensures mask & NSMiniaturizable != 0 <==> HasFlag(flags, Minimizable)
    ensures mask & NSResizable != 0 <==> HasFlag(flags, Resizable)
    ensures mask & !SetFlagsBits == 0
  {
    var m0: StyleMask := 0;
    var m1 := if HasFlag(flags, Titled) then m0 | NSTitled else m0;
    var m2 := if HasFlag(flags, Closable) then m1 | NSClosable else m1;
    var m3 := if HasFlag(flags, Minimizable) then m2 | NSMiniaturizable else m2;
    if HasFlag(flags, Resizable) then m3 | NSResizable else m3
  }

  /** The style mask the window object's constructor passes to `initWithContentRect:styleMask:...`. */
  function CreationStyleMask(flags: WindowFlags): (mask: StyleMask)
    ensures mask & NSTitled != 0 <==> HasFlag(flags, Titled)
    ensures mask & NSClosable != 0 <==> HasFlag(flags, Closable)
    ensures mask & NSMiniaturizable != 0 <==> HasFlag(flags, Minimizable)
    ensures mask & NSResizable != 0 <==> HasFlag(flags, Resizable)
    ensures mask & NSFullSizeContentView != 0 <==> HasFlag(flags, FullSizeContentView)
    ensures mask & NSUtilityWindow != 0 <==> HasFlag(flags, Panel)
    ensures mask & !CreationBits == 0
  {
    var m4 := SetFlagsStyleMask(flags);
    var m5 := if HasFlag(flags, FullSizeContentView) then m4 | NSFullSizeContentView else m4;
    if HasFlag(flags, Panel) then m5 | NSUtilityWindow else m5
  }

  /** The native class the window is created from: a panel for `panel`, a plain window otherwise. */
  function WindowClassName(flags: WindowFlags): (name: string)
    ensures name == "NSPanel" <==> HasFlag(flags, Panel)
    ensures name == "NSWindow" <==> !HasFlag(flags, Panel)
  {
    if HasFlag(flags, Panel) then "NSPanel" else "NSWindow"
  }

  /**
   * `maximizable` and any bit outside the declared flags change neither
   * translation, and `set_flags` yields exactly the creation mask with the
   * utility-window and full-size-content bits cleared.
   */
  lemma StyleMaskRelations(flags: WindowFlags)
    ensures CreationStyleMask(flags | Maximizable) == CreationStyleMask(flags)
    ensures SetFlagsStyleMask(flags | Maximizable) == SetFlagsStyleMask(flags)
    ensures CreationStyleMask(flags & 0x7F) == CreationStyleMask(flags)
    ensures SetFlagsStyleMask(flags) == CreationStyleMask(flags) & SetFlagsBits
    ensures SetFlagsStyleMask(flags) == CreationStyleMask(flags & !(Panel | FullSizeContentView))
  {
  }

  /** The default flags ask for a titled, closable, miniaturizable, resizable `NSWindow`. */
  lemma DefaultFlagsStyle()
    ensures CreationStyleMask(DefaultFlags) == NSTitled | NSClosable | NSMiniaturizable | NSResizable
    ensures WindowClassName(DefaultFlags) == "NSWindow"
    ensures CreationStyleMask(BorderLess) == 0
  {
  }
}
