/**
 * The owner slot of the Objective-C classes the toolkit generates at run
 * time. Each instance carries one instance variable pointing back to the
 * C++ object that owns it; every method the class registers goes through
 * a trampoline that reads that slot and forwards to the owner, and does
 * something fixed when the slot is null. The owner's destructor clears the
 * slot before releasing the instance, so the instance's `dealloc` never
 * reaches an owner that is being destroyed.
 *
 * Also here: the protocol-adoption decision `add_protocol` and the reply
 * of the application delegate's `applicationShouldTerminate:`.
 */
module OwnerSlot {
  import opened Wrappers

  /** The identity of a C++ owner object (a `window_object`, a view's `native`, …). */
  type Owner = nat

  /** The return types of the registered member methods. */
  datatype ReturnType = VoidType | BoolType | UnsignedLongType | ObjectType

  /** A value a trampoline hands back to the Objective-C runtime. */
  datatype Value = NoValue | BoolValue(b: bool) | IntegerValue(n: int) | ObjectValue(obj: Option<nat>)

  predicate HasType(v: Value, t: ReturnType) {
    match t
    case VoidType => v.NoValue?
    case BoolType => v.BoolValue?
    case UnsignedLongType => v.IntegerValue? && v.n >= 0
    case ObjectType => v.ObjectValue?
  }

  /** `return_default_value<R>()`: the value-initialised `R` — nothing, `NO`, `0`, `nil`. */
  function DefaultValue(t: ReturnType): (v: Value)
    ensures HasType(v, t)
    ensures v.BoolValue? ==> !v.b
    ensures v.IntegerValue? ==> v.n == 0
    ensures v.ObjectValue? ==> v.obj.None?
  {
    match t
    case VoidType => NoValue
    case BoolType => BoolValue(false)
    case UnsignedLongType => IntegerValue(0)
    case ObjectType => ObjectValue(None)
  }

  /** A member method of type `t`, as the owner implements it. */
  ghost predicate WellTyped(handler: Owner -> Value, t: ReturnType) {
    forall o :: HasType(handler(o), t)
  }

  /**
   * The trampoline `add_member_method_impl` registers: forward to the
   * owner in the slot, or hand back the default value when it is null.
   * Either way the runtime gets a value of the method's return type.
   */
  function MemberTrampoline(slot: Option<Owner>, t: ReturnType, handler: Owner -> Value): (r: Value)
    ensures WellTyped(handler, t) ==> HasType(r, t)
    ensures slot.None? ==> r == DefaultValue(t)
    ensures slot.Some? ==> r == handler(slot.value)
  {
    if slot.Some? then handler(slot.value) else DefaultValue(t)
  }

  /** The owners a message reaches: the one in the slot, or none. */
  function Delivery(slot: Option<Owner>): (d: seq<Owner>)
    ensures |d| <= 1
    ensures d == [] <==> slot.None?
    ensures forall o :: o in d <==> slot == Some(o)
  {
    if slot.Some? then [slot.value] else []
  }

  /**
   * The window delegate's `windowShouldClose:`: ask the owner, or agree to
   * close when there is none — unlike the member trampoline, whose default
   * would be `NO`.
   */
  function WindowShouldClose(slot: Option<Owner>, ask: Owner -> bool): (close: bool)
    ensures slot.None? ==> close
    ensures slot.Some? ==> close == ask(slot.value)
  {
    if slot.Some? then ask(slot.value) else true
  }

  const TerminateCancel: nat := 0
  const TerminateNow: nat := 1

  /** `application_should_terminate`: `NSTerminateNow` when the application agrees, else `NSTerminateCancel`. */
  function ShouldTerminateReply(shouldTerminate: bool): (reply: nat)
    ensures reply == TerminateNow <==> shouldTerminate
    ensures reply == TerminateCancel <==> !shouldTerminate
  {
    if shouldTerminate then TerminateNow else TerminateCancel
  }

  /**
   * `applicationShouldTerminate:` goes through the member trampoline with
   * return type `unsigned long`: with no application object behind the
   * delegate, the reply is the default 0, which cancels termination.
   */
  lemma ShouldTerminateWithoutOwner(slot: Option<Owner>, shouldTerminate: Owner -> bool)
    ensures var r := MemberTrampoline(slot, UnsignedLongType, (o: Owner) => IntegerValue(ShouldTerminateReply(shouldTerminate(o))));
      r.IntegerValue? && (r.n == TerminateNow <==> slot.Some? && shouldTerminate(slot.value))
  {
  }

  // ---------------------------------------------------------------------------
  // add_protocol
  // ---------------------------------------------------------------------------

  /** The protocols the runtime knows by name, and those the generated class adopts. */
  datatype Protocols = Protocols(registered: set<string>, adopted: set<string>)

  /** `class_addProtocol`: fails when the class already adopts the protocol. */
  function AdoptProtocol(p: Protocols, name: string): (r: (bool, Protocols))
    ensures r.0 <==> name !in p.adopted
    ensures r.1 == p.(adopted := p.adopted + {name})
  {
    (name !in p.adopted, p.(adopted := p.adopted + {name}))
  }

  /**
   * `objc_class::add_protocol(name, force)`: adopt the protocol the runtime
   * already has; otherwise, only when forced, allocate and register it
   * first (`allocOk` says whether `objc_allocateProtocol` succeeded).
   */
  function AddProtocol(p: Protocols, name: string, force: bool, allocOk: bool): (r: (bool, Protocols))
    ensures r.0 ==> name in r.1.registered && name in r.1.adopted && name !in p.adopted
    ensures r.0 <==> name !in p.adopted && (name in p.registered || (force && allocOk))
    ensures name !in p.registered && !(force && allocOk) ==> r.1 == p
    ensures r.1.registered == p.registered + (if name in p.registered || (force && allocOk) then {name} else {})
    ensures r.1.adopted == p.adopted + (if name in p.registered || (force && allocOk) then {name} else {})
  {
    if name in p.registered then AdoptProtocol(p, name)
    else if !force then (false, p)
    else if allocOk then AdoptProtocol(p.(registered := p.registered + {name}), name)
    else (false, p)
  }

  /**
   * A second `add_protocol` with the same name finds the protocol
   * registered and adopted: it reports failure and changes nothing.
   */
  lemma AddProtocolTwice(p: Protocols, name: string, force: bool, allocOk: bool, force2: bool, allocOk2: bool)
    requires AddProtocol(p, name, force, allocOk).0
    ensures var q := AddProtocol(p, name, force, allocOk).1;
      AddProtocol(q, name, force2, allocOk2) == (false, q)
  {
  }

  // ---------------------------------------------------------------------------
  // Instances of a generated class
  // ---------------------------------------------------------------------------

  /**
   * Which owners `dealloc` reaches when the owner's destructor releases the
   * last reference: clearing the slot first (`clearFirst`) means none;
   * releasing first would reach the owner already being destroyed.
   */
  function TeardownDelivery(slot: Option<Owner>, retainCount: nat, clearFirst: bool): (d: seq<Owner>)
    ensures clearFirst ==> d == []
    ensures !clearFirst && retainCount == 1 ==> d == Delivery(slot)
    ensures retainCount != 1 ==> d == []
  {
    if retainCount == 1 then Delivery(if clearFirst then None else slot) else []
  }

  /** An instance of a generated class: its owner slot and retain count, and the owners its messages reached. */
  class Instance {
    var slot: Option<Owner>
    var retainCount: nat
    var deallocated: bool
    var delivered: seq<Owner>

    /** `create_instance` followed by `set_pointer(obj, owner)`. */
    constructor (owner: Owner)
      ensures slot == Some(owner) && retainCount == 1 && !deallocated && delivered == []
    {
      slot := Some(owner);
      retainCount := 1;
      deallocated := false;
      delivered := [];
    }

    /** `set_pointer`: bind an owner, or clear the slot with `None`. */
    method SetPointer(owner: Option<Owner>)
      modifies this
      ensures slot == owner
      ensures retainCount == old(retainCount) && deallocated == old(deallocated) && delivered == old(delivered)
    {
      slot := owner;
    }

    /** A message to a registered member method. */
    method SendMember(t: ReturnType, handler: Owner -> Value) returns (r: Value)
      requires !deallocated
      modifies this
      ensures r == MemberTrampoline(slot, t, handler)
      ensures WellTyped(handler, t) ==> HasType(r, t)
      ensures delivered == old(delivered) + Delivery(slot)
      ensures slot == old(slot) && retainCount == old(retainCount) && !deallocated
    {
      if slot.Some? {
        r := handler(slot.value);
        delivered := delivered + [slot.value];
      } else {
        r := DefaultValue(t);
      }
    }

    /** A notification to a method registered with `add_notification_method`: forwarded, or dropped. */
    method SendNotification()
      requires !deallocated
      modifies this
      ensures delivered == old(delivered) + Delivery(slot)
      ensures slot == old(slot) && retainCount == old(retainCount) && !deallocated
    {
      if slot.Some? {
        delivered := delivered + [slot.value];
      }
    }

    /** `objc_release`: the last release runs the class's `dealloc`, which calls `on_dealloc` on the owner if there is one. */
    method Release()
      requires !deallocated && retainCount >= 1
      modifies this
      ensures retainCount == old(retainCount) - 1
      ensures deallocated <==> old(retainCount) == 1
      ensures delivered == old(delivered) + (if old(retainCount) == 1 then Delivery(slot) else [])
      ensures slot == old(slot)
    {
      retainCount := retainCount - 1;
      if retainCount == 0 {
        if slot.Some? {
          delivered := delivered + [slot.value];
        }
        deallocated := true;
      }
    }

    /**
     * The owner's destructor: clear the slot, then release the instance.
     * Nothing reaches the owner, whether or not the instance is deallocated.
     */
    method DestroyOwner()
      requires !deallocated && retainCount >= 1
      modifies this
      ensures delivered == old(delivered) + TeardownDelivery(old(slot), old(retainCount), true)
      ensures delivered == old(delivered)
      ensures slot.None? && retainCount == old(retainCount) - 1 && (deallocated <==> old(retainCount) == 1)
    {
      SetPointer(None);
      Release();
    }
  }

  /** After the slot is cleared, no message of any kind reaches an owner. */
  lemma ClearedSlotIsInert(t: ReturnType, handler: Owner -> Value, ask: Owner -> bool)
    ensures MemberTrampoline(None, t, handler) == DefaultValue(t)
    ensures Delivery(None) == []
    ensures WindowShouldClose(None, ask)
  {
  }
}
