/**
 * Reference-count ownership of the two retain-counted wrappers, `image`
 * (a CoreGraphics image) and `font` (a CoreText font).
 *
 * The foreign runtime is modelled as a map from each live object to its
 * retain count; an object whose count drops to zero is deallocated and
 * leaves the map. Retaining or releasing an object that is no longer live
 * is recorded as a fault instead of happening. The accounting predicate
 * `Balanced` compares the counts with the multiset of handles held by the
 * live owners (wrappers and any raw references still owed a release).
 */
module Ownership {
  import opened Wrappers

  /** A `CGImageRef` or `CTFontRef`, as an opaque identity. */
  type Handle = nat

  datatype Fault = RetainedFreed(h: Handle) | ReleasedFreed(h: Handle)

  /** Retain counts of the live foreign objects, and the faults so far. */
  datatype Foreign = Foreign(counts: map<Handle, nat>, faults: seq<Fault>)

  const NoObjects := Foreign(map[], [])

  function CountOf(f: Foreign, h: Handle): nat {
    if h in f.counts then f.counts[h] else 0
  }

  /** `CFRetain` / `CGImageRetain`. */
  function Retain(f: Foreign, h: Handle): (g: Foreign)
    ensures h in f.counts ==> g.faults == f.faults && g.counts == f.counts[h := f.counts[h] + 1]
    ensures h !in f.counts ==> g.counts == f.counts && g.faults == f.faults + [RetainedFreed(h)]
  {
    if h in f.counts then f.(counts := f.counts[h := f.counts[h] + 1])
    else f.(faults := f.faults + [RetainedFreed(h)])
  }

  /** `CFRelease` / `CGImageRelease`: the last release deallocates. */
  function Release(f: Foreign, h: Handle): (g: Foreign)
    ensures h in f.counts && f.counts[h] > 1 ==> g.faults == f.faults && g.counts == f.counts[h := f.counts[h] - 1]
    ensures h in f.counts && f.counts[h] <= 1 ==> g.faults == f.faults && g.counts == f.counts - {h}
    ensures h !in f.counts ==> g.counts == f.counts && g.faults == f.faults + [ReleasedFreed(h)]
  {
    if h !in f.counts then f.(faults := f.faults + [ReleasedFreed(h)])
    else if f.counts[h] <= 1 then f.(counts := f.counts - {h})
    else f.(counts := f.counts[h := f.counts[h] - 1])
  }

  /**
   * An object returned by a `Create` function: the caller owns one more
   * reference to it. The object may be new, or one the framework already
   * handed out (CoreText caches fonts), so its count is incremented.
   */
  function Adopt(f: Foreign, h: Handle): (g: Foreign)
    ensures g.faults == f.faults && h in g.counts && CountOf(g, h) == CountOf(f, h) + 1
    ensures forall k :: k != h ==> CountOf(g, k) == CountOf(f, k)
  {
    f.(counts := f.counts[h := CountOf(f, h) + 1])
  }

  /** The `if (m_native) retain` guard. */
  function RetainIfSet(f: Foreign, o: Option<Handle>): Foreign {
    if o.Some? then Retain(f, o.value) else f
  }

  /** The `if (m_native) release` guard. */
  function ReleaseIfSet(f: Foreign, o: Option<Handle>): Foreign {
    if o.Some? then Release(f, o.value) else f
  }

  /** What a wrapper holding `o` contributes to the owners: one reference to its handle, or nothing. */
  function Held(o: Option<Handle>): multiset<Handle> {
    if o.Some? then multiset{o.value} else multiset{}
  }

  /** No fault so far, and every object's retain count is the number of live owners holding it. */
  ghost predicate Balanced(f: Foreign, owners: multiset<Handle>) {
    f.faults == [] && forall h :: CountOf(f, h) == owners[h]
  }

  // ---------------------------------------------------------------------------
  // Handle-level steps shared by both wrappers.
  // ---------------------------------------------------------------------------

  /** Taking a new owned reference to a handle some owner already holds keeps the balance. */
  lemma {:induction false} RetainBalanced(f: Foreign, owners: multiset<Handle>, o: Option<Handle>)
    requires Balanced(f, owners) && Held(o) <= owners
    ensures Balanced(RetainIfSet(f, o), owners + Held(o))
  {
    if o.Some? {
      var h := o.value;
      assert owners[h] >= 1;
      var g := RetainIfSet(f, o);
      forall k ensures CountOf(g, k) == (owners + Held(o))[k] {
        if k == h {
          assert CountOf(g, k) == CountOf(f, k) + 1;
        } else {
          assert CountOf(g, k) == CountOf(f, k);
        }
      }
    }
  }

  /** Dropping the reference an owner holds keeps the balance. */
  lemma {:induction false} ReleaseBalanced(f: Foreign, owners: multiset<Handle>, o: Option<Handle>)
    requires Balanced(f, owners) && Held(o) <= owners
    ensures Balanced(ReleaseIfSet(f, o), owners - Held(o))
  {
    if o.Some? {
      var h := o.value;
      assert owners[h] >= 1;
      var g := ReleaseIfSet(f, o);
      forall k ensures CountOf(g, k) == (owners - Held(o))[k] {
        if k == h {
          assert CountOf(g, k) == CountOf(f, k) - 1;
        } else {
          assert CountOf(g, k) == CountOf(f, k);
        }
      }
    }
  }

  /** Adopting a created object adds its creator as one more owner, whether or not others hold it already. */
  lemma AdoptBalanced(f: Foreign, owners: multiset<Handle>, h: Handle)
    requires Balanced(f, owners)
    ensures Balanced(Adopt(f, h), owners + multiset{h})
  {
    forall k ensures CountOf(Adopt(f, h), k) == (owners + multiset{h})[k] {
      if k != h {
        assert CountOf(Adopt(f, h), k) == CountOf(f, k);
      }
    }
  }

  /**
   * Release the old handle, then retain the new one: the body both
   * assignment operators share. Between two different owners it keeps the
   * balance, even when both hold the same handle.
   */
  function ReleaseThenRetain(f: Foreign, old_: Option<Handle>, new_: Option<Handle>): Foreign {
    RetainIfSet(ReleaseIfSet(f, old_), new_)
  }

  lemma {:induction false} ReleaseThenRetainBalanced(f: Foreign, owners: multiset<Handle>, dst: Option<Handle>, src: Option<Handle>)
    requires Balanced(f, owners) && Held(dst) + Held(src) <= owners
    ensures Balanced(ReleaseThenRetain(f, dst, src), owners - Held(dst) + Held(src))
  {
    ReleaseBalanced(f, owners, dst);
    assert Held(src) <= owners - Held(dst);
    RetainBalanced(ReleaseIfSet(f, dst), owners - Held(dst), src);
  }

  // ---------------------------------------------------------------------------
  // image
  // ---------------------------------------------------------------------------

  datatype ImageVal = ImageVal(native: Option<Handle>, scale: real)

  /** What a moved-from image holds: no handle, scale factor 1. */
  const MovedImage := ImageVal(None, 1.0)

  /** `image(native_image_ref, scale)`: wraps the handle and retains it; the caller keeps its own reference. */
  function ImageFromNative(native: Option<Handle>, scale: real, f: Foreign): (r: (ImageVal, Foreign))
    ensures r.0 == ImageVal(native, scale)
    ensures native.Some? && native.value in f.counts ==> CountOf(r.1, native.value) == CountOf(f, native.value) + 1
  {
    (ImageVal(native, scale), RetainIfSet(f, native))
  }

  /** `image(const image&)`: same handle and scale, one more retain. */
  function ImageCopy(src: ImageVal, f: Foreign): (r: (ImageVal, Foreign))
    ensures r.0 == src
    ensures src.native.Some? && src.native.value in f.counts ==>
              CountOf(r.1, src.native.value) == CountOf(f, src.native.value) + 1
  {
    (src, RetainIfSet(f, src.native))
  }

  /** `image(image&&)`: the new image takes the handle and scale without a retain; the source is emptied. */
  function ImageMove(src: ImageVal): (r: (ImageVal, ImageVal))
    ensures r.0 == src && r.1 == MovedImage
  {
    (src, MovedImage)
  }

  /** `~image`: release the handle if there is one. */
  function ImageDestroy(v: ImageVal, f: Foreign): (g: Foreign)
    ensures v.native.None? ==> g == f
    ensures v.native.Some? && CountOf(f, v.native.value) > 0 ==> CountOf(g, v.native.value) == CountOf(f, v.native.value) - 1
  {
    ReleaseIfSet(f, v.native)
  }

  /**
   * `image::operator=(const image&)`: when both already hold the same handle
   * only the scale is copied; otherwise release the old handle, take the new
   * one with its scale, and retain it.
   */
  function ImageCopyAssign(dst: ImageVal, src: ImageVal, f: Foreign): (r: (ImageVal, Foreign))
    ensures r.0 == src
    ensures dst.native == src.native ==> r.1 == f
  {
    if dst.native == src.native then (dst.(scale := src.scale), f)
    else (src, ReleaseThenRetain(f, dst.native, src.native))
  }

  /**
   * `image::operator=(image&&)`: release the old handle, take the source's
   * handle and scale, and empty the source. Returns the target, the source,
   * and the runtime state; when both are the same object the source's
   * final value is the one that remains.
   */
  function ImageMoveAssign(dst: ImageVal, src: ImageVal, f: Foreign): (r: (ImageVal, ImageVal, Foreign))
    ensures r.0 == src && r.1 == MovedImage
    ensures r.2 == ReleaseIfSet(f, dst.native)
  {
    (src, MovedImage, ReleaseIfSet(f, dst.native))
  }

  /** Copy construction and destruction keep the balance: a copy is one more owner, a destroyed image one fewer. */
  lemma ImageCopyAndDestroyBalanced(src: ImageVal, f: Foreign, owners: multiset<Handle>)
    requires Balanced(f, owners) && Held(src.native) <= owners
    ensures Balanced(ImageCopy(src, f).1, owners + Held(src.native))
    ensures Balanced(ImageDestroy(src, f), owners - Held(src.native))
  {
    RetainBalanced(f, owners, src.native);
    ReleaseBalanced(f, owners, src.native);
  }

  /**
   * Copy-assigning between two different images keeps the balance: the
   * target stops holding its old handle and holds the source's. When both
   * hold the same handle nothing is retained or released at all.
   */
  lemma ImageCopyAssignBalanced(dst: ImageVal, src: ImageVal, f: Foreign, owners: multiset<Handle>)
    requires Balanced(f, owners) && Held(dst.native) + Held(src.native) <= owners
    ensures Balanced(ImageCopyAssign(dst, src, f).1, owners - Held(dst.native) + Held(src.native))
  {
    if dst.native != src.native {
      ReleaseThenRetainBalanced(f, owners, dst.native, src.native);
    } else {
      assert owners - Held(dst.native) + Held(src.native) == owners;
    }
  }

  /** Assigning an image to itself changes neither the image nor any retain count. */
  lemma ImageSelfCopyAssign(v: ImageVal, f: Foreign)
    ensures ImageCopyAssign(v, v, f) == (v, f)
  {
  }

  /**
   * Move-assigning between two images keeps the balance: the source's
   * reference passes to the target without a retain and the target's old
   * reference is released. On self-move the image ends empty and its one
   * reference is released.
   */
  lemma ImageMoveAssignBalanced(dst: ImageVal, src: ImageVal, f: Foreign, owners: multiset<Handle>)
    requires Balanced(f, owners) && Held(dst.native) <= owners
    ensures Balanced(ImageMoveAssign(dst, src, f).2, owners - Held(dst.native))
  {
    ReleaseBalanced(f, owners, dst.native);
  }

  // ---------------------------------------------------------------------------
  // font
  // ---------------------------------------------------------------------------

  datatype FontVal = FontVal(native: Option<Handle>, size: real)

  /** What a moved-from or failed font holds: no handle, size 0. */
  const InvalidFont := FontVal(None, 0.0)

  /** Adopt the object a `CTFontCreate...` call returned, if it returned one. */
  function AdoptIfSet(f: Foreign, created: Option<Handle>): Foreign
  {
    if created.Some? then Adopt(f, created.value) else f
  }

  /**
   * `font(name, size)`: the font takes whatever `CTFontCreateWithName`
   * returned and keeps the requested size even when that is null.
   */
  function FontByName(created: Option<Handle>, size: real, f: Foreign): (r: (FontVal, Foreign))
    ensures r.0 == FontVal(created, size)
    ensures created.Some? ==> CountOf(r.1, created.value) == CountOf(f, created.value) + 1
  {
    (FontVal(created, size), AdoptIfSet(f, created))
  }

  /**
   * `font(filepath, size, filepath_tag)`: `descriptors` is the length of
   * the descriptor array, or None when the array could not be created.
   * Without a descriptor the font is invalid with size 0; otherwise it holds
   * what `CTFontCreateWithFontDescriptor` returned for the first one.
   */
  function FontFromFile(descriptors: Option<nat>, created: Option<Handle>, size: real, f: Foreign): (r: (FontVal, Foreign))
    ensures descriptors.None? || descriptors.value == 0 ==> r == (InvalidFont, f)
    ensures descriptors.Some? && descriptors.value > 0 ==> r.0 == FontVal(created, size)
    ensures descriptors.Some? && descriptors.value > 0 ==> r == FontByName(created, size, f)
    ensures descriptors.Some? && descriptors.value > 0 && created.Some? ==>
              CountOf(r.1, created.value) == CountOf(f, created.value) + 1
  {
    if descriptors.None? || descriptors.value == 0 then (InvalidFont, f)
    else (FontVal(created, size), AdoptIfSet(f, created))
  }

  /**
   * `font(data, data_size, size)`: null or empty data, a failed `CFDataCreate`
   * and a failed descriptor each give an invalid font of size 0.
   */
  function FontFromData(dataPresent: bool, dataSize: nat, dataCreated: bool, descriptorCreated: bool,
                        created: Option<Handle>, size: real, f: Foreign): (r: (FontVal, Foreign))
    ensures !(dataPresent && dataSize > 0 && dataCreated && descriptorCreated) ==> r == (InvalidFont, f)
    ensures dataPresent && dataSize > 0 && dataCreated && descriptorCreated ==> r.0 == FontVal(created, size)
    ensures dataPresent && dataSize > 0 && dataCreated && descriptorCreated ==> r == FontByName(created, size, f)
    ensures dataPresent && dataSize > 0 && dataCreated && descriptorCreated && created.Some? ==>
              CountOf(r.1, created.value) == CountOf(f, created.value) + 1
  {
    if !dataPresent || dataSize == 0 then (InvalidFont, f)
    else if !dataCreated then (InvalidFont, f)
    else if !descriptorCreated then (InvalidFont, f)
    else (FontVal(created, size), AdoptIfSet(f, created))
  }

  /** A constructed font owns exactly the one reference its creation returned. */
  lemma FontCreationBalanced(created: Option<Handle>, size: real, f: Foreign, owners: multiset<Handle>)
    requires Balanced(f, owners)
    ensures Balanced(FontByName(created, size, f).1, owners + Held(created))
  {
    if created.Some? {
      AdoptBalanced(f, owners, created.value);
    }
  }

  /**
   * A font made from a file owns the one reference its creation returned;
   * an early return leaves every count as it was.
   */
  lemma FontFromFileBalanced(descriptors: Option<nat>, created: Option<Handle>, size: real, f: Foreign, owners: multiset<Handle>)
    requires Balanced(f, owners)
    ensures descriptors.Some? && descriptors.value > 0 ==>
              Balanced(FontFromFile(descriptors, created, size, f).1, owners + Held(created))
    ensures !(descriptors.Some? && descriptors.value > 0) ==>
              Balanced(FontFromFile(descriptors, created, size, f).1, owners)
  {
    FontCreationBalanced(created, size, f, owners);
  }

  /**
   * A font made from data owns the one reference its creation returned;
   * each early return leaves every count as it was.
   */
  lemma FontFromDataBalanced(dataPresent: bool, dataSize: nat, dataCreated: bool, descriptorCreated: bool,
                             created: Option<Handle>, size: real, f: Foreign, owners: multiset<Handle>)
    requires Balanced(f, owners)
    ensures dataPresent && dataSize > 0 && dataCreated && descriptorCreated ==>
              Balanced(FontFromData(dataPresent, dataSize, dataCreated, descriptorCreated, created, size, f).1, owners + Held(created))
    ensures !(dataPresent && dataSize > 0 && dataCreated && descriptorCreated) ==>
              Balanced(FontFromData(dataPresent, dataSize, dataCreated, descriptorCreated, created, size, f).1, owners)
  {
    FontCreationBalanced(created, size, f, owners);
  }

  /** `font(const font&)`: same handle and size, one more retain. */
  function FontCopy(src: FontVal, f: Foreign): (r: (FontVal, Foreign))
    ensures r.0 == src
    ensures src.native.Some? && src.native.value in f.counts ==>
              CountOf(r.1, src.native.value) == CountOf(f, src.native.value) + 1
  {
    (src, RetainIfSet(f, src.native))
  }

  /** `font(font&&)`: the new font takes the handle and size without a retain; the source is emptied to size 0. */
  function FontMove(src: FontVal): (r: (FontVal, FontVal))
    ensures r.0 == src && r.1 == InvalidFont
  {
    (src, InvalidFont)
  }

  /** `~font`: release the handle if there is one. */
  function FontDestroy(v: FontVal, f: Foreign): (g: Foreign)
    ensures v.native.None? ==> g == f
    ensures v.native.Some? && CountOf(f, v.native.value) > 0 ==> CountOf(g, v.native.value) == CountOf(f, v.native.value) - 1
  {
    ReleaseIfSet(f, v.native)
  }

  /**
   * `font::operator=(const font&)` as written: release the old handle, take
   * the new handle and size, retain — with no check that the two fonts are
   * the same object or hold the same handle.
   */
  function FontCopyAssignAsWritten(dst: FontVal, src: FontVal, f: Foreign): (r: (FontVal, Foreign))
    ensures r.0 == src
  {
    (src, ReleaseThenRetain(f, dst.native, src.native))
  }

  /**
   * Assigning a font to itself when it is the only owner of its handle
   * releases the last reference, deallocating the font, and then retains
   * the deallocated object.
   */
  lemma FontSelfAssignUseAfterFree(v: FontVal, f: Foreign, owners: multiset<Handle>)
    requires Balanced(f, owners) && v.native.Some? && owners[v.native.value] == 1
    ensures FontCopyAssignAsWritten(v, v, f).1.faults == [RetainedFreed(v.native.value)]
    ensures v.native.value !in FontCopyAssignAsWritten(v, v, f).1.counts
  {
    assert CountOf(f, v.native.value) == 1;
  }

  /** A concrete instance: one font, one reference, assigned to itself. */
  lemma FontSelfAssignExample()
    ensures FontCopyAssignAsWritten(FontVal(Some(7), 12.0), FontVal(Some(7), 12.0), Foreign(map[7 := 1], [])).1
              == Foreign(map[], [RetainedFreed(7)])
  {
  }

  /**
   * `font::operator=(const font&)` with the same-handle guard that
   * `image::operator=` has: when both hold the same handle only the size is
   * copied.
   */
  function FontCopyAssign(dst: FontVal, src: FontVal, f: Foreign): (r: (FontVal, Foreign))
    ensures r.0 == src
    ensures dst.native == src.native ==> r.1 == f
    ensures dst.native != src.native ==> r == FontCopyAssignAsWritten(dst, src, f)
  {
    if dst.native == src.native then (dst.(size := src.size), f)
    else (src, ReleaseThenRetain(f, dst.native, src.native))
  }

  /**
   * With the guard, copy-assignment keeps the balance whether the two fonts
   * are different objects or the same one.
   */
  lemma FontCopyAssignBalanced(dst: FontVal, src: FontVal, f: Foreign, owners: multiset<Handle>, same: bool)
    requires Balanced(f, owners)
    requires same ==> dst == src && Held(dst.native) <= owners
    requires !same ==> Held(dst.native) + Held(src.native) <= owners
    ensures Balanced(FontCopyAssign(dst, src, f).1, if same then owners else owners - Held(dst.native) + Held(src.native))
  {
    if dst.native != src.native {
      ReleaseThenRetainBalanced(f, owners, dst.native, src.native);
    } else if !same {
      assert owners - Held(dst.native) + Held(src.native) == owners;
    }
  }

  /** `font::operator=(font&&)`: release the old handle, take the source's, empty the source to size 0. */
  function FontMoveAssign(dst: FontVal, src: FontVal, f: Foreign): (r: (FontVal, FontVal, Foreign))
    ensures r.0 == src && r.1 == InvalidFont
    ensures r.2 == ReleaseIfSet(f, dst.native)
  {
    (src, InvalidFont, ReleaseIfSet(f, dst.native))
  }

  /** Move-assignment of fonts keeps the balance, as for images. */
  lemma FontMoveAssignBalanced(dst: FontVal, src: FontVal, f: Foreign, owners: multiset<Handle>)
    requires Balanced(f, owners) && Held(dst.native) <= owners
    ensures Balanced(FontMoveAssign(dst, src, f).2, owners - Held(dst.native))
  {
    ReleaseBalanced(f, owners, dst.native);
  }

  // ---------------------------------------------------------------------------
  // The wrappers as objects whose fields the operations update in place.
  // ---------------------------------------------------------------------------

  /** The foreign runtime's retain counts, shared by every wrapper. */
  class Runtime {
    var state: Foreign

    constructor ()
      ensures state == NoObjects
    {
      state := NoObjects;
    }
  }

  class Image {
    const rt: Runtime
    var native: Option<Handle>
    var scale: real

    function Val(): ImageVal
      reads this
    {
      ImageVal(native, scale)
    }

    constructor FromNative(rt: Runtime, h: Option<Handle>, scale: real)
      modifies rt
      ensures this.rt == rt && Val() == ImageFromNative(h, scale, old(rt.state)).0
      ensures rt.state == ImageFromNative(h, scale, old(rt.state)).1
    {
      this.rt := rt;
      native := h;
      this.scale := scale;
      new;
      if native.Some? {
        rt.state := Retain(rt.state, native.value);
      }
    }

    constructor Copy(src: Image)
      modifies src.rt
      ensures rt == src.rt && Val() == ImageCopy(old(src.Val()), old(src.rt.state)).0
      ensures rt.state == ImageCopy(old(src.Val()), old(src.rt.state)).1
    {
      rt := src.rt;
      native := src.native;
      scale := src.scale;
      new;
      if native.Some? {
        rt.state := Retain(rt.state, native.value);
      }
    }

    constructor Move(src: Image)
      modifies src
      ensures rt == src.rt && Val() == ImageMove(old(src.Val())).0 && src.Val() == ImageMove(old(src.Val())).1
    {
      rt := src.rt;
      native := src.native;
      scale := src.scale;
      new;
      src.scale := 1.0;
      src.native := None;
    }

    method Destroy()
      modifies rt
      ensures rt.state == ImageDestroy(Val(), old(rt.state))
    {
      if native.Some? {
        rt.state := Release(rt.state, native.value);
      }
    }

    method AssignCopy(src: Image)
      requires src.rt == rt
      modifies this, rt
      ensures (Val(), rt.state) == ImageCopyAssign(old(Val()), old(src.Val()), old(rt.state))
    {
      if native == src.native {
        scale := src.scale;
        return;
      }
      if native.Some? {
        rt.state := Release(rt.state, native.value);
      }
      native := src.native;
      scale := src.scale;
      if native.Some? {
        rt.state := Retain(rt.state, native.value);
      }
    }

    method AssignMove(src: Image)
      requires src.rt == rt
      modifies this, src, rt
      ensures var r := ImageMoveAssign(old(Val()), old(src.Val()), old(rt.state));
        rt.state == r.2 && src.Val() == r.1 && (src != this ==> Val() == r.0)
    {
      if native.Some? {
        rt.state := Release(rt.state, native.value);
      }
      native := src.native;
      scale := src.scale;
      src.scale := 1.0;
      src.native := None;
    }
  }

  class Font {
    const rt: Runtime
    var native: Option<Handle>
    var size: real

    function Val(): FontVal
      reads this
    {
      FontVal(native, size)
    }

    constructor ByName(rt: Runtime, created: Option<Handle>, size: real)
      modifies rt
      ensures this.rt == rt && Val() == FontByName(created, size, old(rt.state)).0
      ensures rt.state == FontByName(created, size, old(rt.state)).1
    {
      this.rt := rt;
      native := created;
      this.size := size;
      new;
      if created.Some? {
        rt.state := Adopt(rt.state, created.value);
      }
    }

    constructor FromFile(rt: Runtime, descriptors: Option<nat>, created: Option<Handle>, size: real)
      modifies rt
      ensures this.rt == rt && Val() == FontFromFile(descriptors, created, size, old(rt.state)).0
      ensures rt.state == FontFromFile(descriptors, created, size, old(rt.state)).1
    {
      this.rt := rt;
      this.size := size;
      native := None;
      new;
      if descriptors.None? {
        this.size := 0.0;
        return;
      }
      if descriptors.value == 0 {
        this.size := 0.0;
        return;
      }
      native := created;
      if created.Some? {
        rt.state := Adopt(rt.state, created.value);
      }
    }

    constructor FromData(rt: Runtime, dataPresent: bool, dataSize: nat, dataCreated: bool, descriptorCreated: bool,
                         created: Option<Handle>, size: real)
      modifies rt
      ensures this.rt == rt
      ensures Val() == FontFromData(dataPresent, dataSize, dataCreated, descriptorCreated, created, size, old(rt.state)).0
      ensures rt.state == FontFromData(dataPresent, dataSize, dataCreated, descriptorCreated, created, size, old(rt.state)).1
    {
      this.rt := rt;
      this.size := size;
      native := None;
      new;
      if !dataPresent || dataSize == 0 {
        this.size := 0.0;
        return;
      }
      if !dataCreated {
        this.size := 0.0;
        return;
      }
      if !descriptorCreated {
        this.size := 0.0;
        return;
      }
      native := created;
      if created.Some? {
        rt.state := Adopt(rt.state, created.value);
      }
    }

    constructor Copy(src: Font)
      modifies src.rt
      ensures rt == src.rt && Val() == FontCopy(old(src.Val()), old(src.rt.state)).0
      ensures rt.state == FontCopy(old(src.Val()), old(src.rt.state)).1
    {
      rt := src.rt;
      native := src.native;
      size := src.size;
      new;
      if native.Some? {
        rt.state := Retain(rt.state, native.value);
      }
    }

    constructor Move(src: Font)
      modifies src
      ensures rt == src.rt && Val() == FontMove(old(src.Val())).0 && src.Val() == FontMove(old(src.Val())).1
    {
      rt := src.rt;
      native := src.native;
      size := src.size;
      new;
      src.size := 0.0;
      src.native := None;
    }

    method Destroy()
      modifies rt
      ensures rt.state == FontDestroy(Val(), old(rt.state))
    {
      if native.Some? {
        rt.state := Release(rt.state, native.value);
      }
    }

    /** Copy-assignment, with the same-handle guard (see `FontCopyAssignAsWritten` for the code as written). */
    method AssignCopy(src: Font)
      requires src.rt == rt
      modifies this, rt
      ensures (Val(), rt.state) == FontCopyAssign(old(Val()), old(src.Val()), old(rt.state))
    {
      if native == src.native {
        size := src.size;
        return;
      }
      if native.Some? {
        rt.state := Release(rt.state, native.value);
      }
      native := src.native;
      size := src.size;
      if native.Some? {
        rt.state := Retain(rt.state, native.value);
      }
    }

    method AssignMove(src: Font)
      requires src.rt == rt
      modifies this, src, rt
      ensures var r := FontMoveAssign(old(Val()), old(src.Val()), old(rt.state));
        rt.state == r.2 && src.Val() == r.1 && (src != this ==> Val() == r.0)
    {
      if native.Some? {
        rt.state := Release(rt.state, native.value);
      }
      native := src.native;
      size := src.size;
      src.native := None;
      src.size := 0.0;
    }
  }
}
