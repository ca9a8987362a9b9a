/**
 * View bookkeeping: each view keeps a pointer to its parent and the ordered
 * list of its children; a view created as a window additionally owns a
 * window object. `window_proxy` forwards to that window object and falls
 * back to a null handle or an empty frame when the view is not a window.
 */
module Views {
  import opened Wrappers
  import opened Seqs
  import opened WindowStyle

  /** `nano::rect<int>`. */
  datatype Rect = Rect(x: int, y: int, width: int, height: int)

  const EmptyRect := Rect(0, 0, 0, 0)

  /** A native window handle, as an opaque identity. */
  type WindowHandle = nat

  /** What the window object holds of its native window. */
  datatype WindowObject = WindowObject(
    handle: WindowHandle,
    className: string,
    styleMask: StyleMask,
    titlebarTransparent: bool,
    frame: Rect)

  /**
   * The window object built for `flags`: the style mask and class chosen
   * from the flags, a transparent title bar for a full-size content view.
   * `frame` is where the native layer placed the window after centring it.
   */
  function NewWindowObject(handle: WindowHandle, flags: WindowFlags, frame: Rect): (w: WindowObject)
    ensures w.styleMask == CreationStyleMask(flags) && w.className == WindowClassName(flags)
    ensures w.titlebarTransparent <==> HasFlag(flags, FullSizeContentView)
  {
    WindowObject(handle, WindowClassName(flags), CreationStyleMask(flags), HasFlag(flags, FullSizeContentView), frame)
  }

  /** A reported programmer error (`NANO_ERROR`, `NANO_ASSERT`); execution continues after it. */
  datatype Report = ChildrenStillAttached | NotInParentList | NotAWindow

  class View {
    var parent: View?
    var children: seq<View>
    var window: Option<WindowObject>

    /** `view(window_flags)`: a top-level view that owns a new window object. */
    constructor AsWindow(handle: WindowHandle, flags: WindowFlags, frame: Rect)
      ensures parent == null && children == []
      ensures window == Some(NewWindowObject(handle, flags, frame))
    {
      parent := null;
      children := [];
      window := Some(NewWindowObject(handle, flags, frame));
    }

    /** `view(view* parent, rect)`: the new view records its parent and is appended to the parent's children. */
    constructor InParent(p: View)
      modifies p
      ensures parent == p && children == [] && window == None
      ensures p.children == old(p.children) + [this]
      ensures p.parent == old(p.parent) && p.window == old(p.window)
    {
      parent := p;
      children := [];
      window := None;
      new;
      p.children := p.children + [this];
    }

    /** `view(native_view_handle, rect, flags)`: attached to a native view, so no toolkit parent. */
    constructor InNativeView()
      ensures parent == null && children == [] && window == None
    {
      parent := null;
      children := [];
      window := None;
    }

    /**
     * `~view`: report if children are still attached, then, if there is a
     * parent, erase this view's first entry from the parent's children or
     * report that there is none.
     */
    method Destroy() returns (reports: seq<Report>)
      modifies parent
      ensures reports ==
        (if old(children) != [] then [ChildrenStillAttached] else [])
        + (if parent != null && this !in old(parent.children) then [NotInParentList] else [])
      ensures parent != null ==> parent.children == RemoveFirst(old(parent.children), this)
      ensures parent != null ==> parent.parent == old(parent.parent) && parent.window == old(parent.window)
    {
      reports := [];
      if children != [] {
        reports := reports + [ChildrenStillAttached];
      }
      if parent != null {
        var i := Find(parent.children, this);
        if i == |parent.children| {
          RemoveFirstAbsent(parent.children, this);
          reports := reports + [NotInParentList];
        } else {
          RemoveFirstIsSplice(parent.children, this);
          parent.children := parent.children[..i] + parent.children[i + 1..];
        }
      }
    }

    /** `is_window`. */
    predicate IsWindow()
      reads this
    {
      window.Some?
    }

    /** `window_proxy::get_native_handle`: the window's handle, or null for a plain view; nothing is reported. */
    function ProxyNativeHandle(): (h: Option<WindowHandle>)
      reads this
      ensures h.Some? <==> IsWindow()
      ensures IsWindow() ==> h.value == window.value.handle
    {
      if IsWindow() then Some(window.value.handle) else None
    }

    /** `window_proxy::get_frame`: the window's frame, or an empty rectangle and a report for a plain view. */
    function ProxyFrame(): (r: (Rect, seq<Report>))
      reads this
      ensures IsWindow() ==> r == (window.value.frame, [])
      ensures !IsWindow() ==> r == (EmptyRect, [NotAWindow])
    {
      if IsWindow() then (window.value.frame, []) else (EmptyRect, [NotAWindow])
    }

    /** `window_proxy::set_flags`: on a window, replace its style mask; on a plain view, only report. */
    method ProxySetFlags(flags: WindowFlags) returns (reports: seq<Report>)
      modifies this
      ensures parent == old(parent) && children == old(children)
      ensures old(IsWindow()) ==> reports == [] && window == Some(old(window.value).(styleMask := SetFlagsStyleMask(flags)))
      ensures !old(IsWindow()) ==> reports == [NotAWindow] && window == None
    {
      if window.Some? {
        window := Some(window.value.(styleMask := SetFlagsStyleMask(flags)));
        reports := [];
      } else {
        reports := [NotAWindow];
      }
    }

    /** `window_proxy::set_window_frame`: on a window, move it; on a plain view, only report. */
    method ProxySetWindowFrame(r: Rect) returns (reports: seq<Report>)
      modifies this
      ensures parent == old(parent) && children == old(children)
      ensures old(IsWindow()) ==> reports == [] && window == Some(old(window.value).(frame := r))
      ensures !old(IsWindow()) ==> reports == [NotAWindow] && window == None
    {
      if window.Some? {
        window := Some(window.value.(frame := r));
        reports := [];
      } else {
        reports := [NotAWindow];
      }
    }
  }

  /**
   * A child that occurs once in its parent's list is gone from it after the
   * child is destroyed; every other entry keeps its multiplicity and order.
   */
  lemma DetachRemovesOneEntry(children: seq<View>, child: View)
    requires NoDup(children) && child in children
    ensures child !in RemoveFirst(children, child)
    ensures multiset(RemoveFirst(children, child)) == multiset(children) - multiset{child}
    ensures RemoveFirst(children, child) == children[..FirstIndex(children, child)] + children[FirstIndex(children, child) + 1..]
  {
    RemoveFirstKeepsNoDup(children, child);
    RemoveFirstMultiset(children, child);
    RemoveFirstIsSplice(children, child);
  }

  /** `set_flags` on a window created with `flags` drops the panel and full-size bits and keeps the rest. */
  lemma SetFlagsAfterCreation(handle: WindowHandle, flags: WindowFlags, frame: Rect)
    ensures var w := NewWindowObject(handle, flags, frame);
      w.styleMask & SetFlagsBits == SetFlagsStyleMask(flags)
  {
    StyleMaskRelations(flags);
  }
}
