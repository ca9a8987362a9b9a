# nano-ui: the decision and bookkeeping core, in Dafny

nano-ui is a small C++ toolkit over AppKit, CoreGraphics and CoreText. Almost all of it forwards to the platform. This project models the logic that sits between those calls and proves properties about it:

- **Event classification.** The `event_type` and `event_modifiers` enumerations and the predicates over them (`is_mouse_event`, `is_click_event`, the `is_*_down` accessors). See `event_types.dfy`.
- **Native translation tables.** CoreGraphics event type to `event_type`, and CoreGraphics flags plus button number to `event_modifiers` (`native_translation.dfy`). `window_flags` to the AppKit style mask, both at window creation and in `set_flags` (`window_style.dfy`).
- **Event construction.** The `event` constructor and the process-wide last click position it reads and writes. See `event_record.dfy`.
- **Deferred messages.** The list behind `post_message`: `add_message` without duplicates, `remove_message` erasing the first match, and the main queue that calls each message and then removes it. See `deferred_messages.dfy`.
- **Views.** A view's parent and children, `~view` detaching a view from its parent, and the `window_proxy` fallbacks for a view that is not a window. See `views.dfy`.
- **Image and font ownership.** Copies, moves, assignments and destruction of `image` and `font`, against a model of the foreign retain counts. See `ownership.dfy`.
- **Owner slot.** How the generated Objective-C classes dispatch through the pointer to their C++ owner when that pointer is null. Also `add_protocol`, and the delegate reply to `applicationShouldTerminate:`. See `owner_slot.dfy`.
- **Command line.** How the application stores and joins its command-line arguments. See `application.dfy`.
- **Generated class names.** The random suffix appended to generated class names. See `class_names.dfy`.

`seqs.dfy` provides `std::find` and single-element `erase` on sequences. `wrappers.dfy` provides `Option`.

The foreign objects are `CGImageRef`, `CTFontRef` and the Objective-C instances. Each is an opaque `nat` identity. CoreFoundation retain counting is a map from live objects to counts. Releasing the last reference removes the object from the map. Retaining or releasing an object that is not in the map is recorded as a fault. `Balanced(f, owners)` says two things: there are no faults, and every count equals the number of live owners (a multiset) holding that object.

The numeric values of the CoreGraphics event-type codes, flag masks and button numbers are defined in Apple headers that are not part of this model, so they are enumerations here. The AppKit style-mask constants are written out in `nano/ui.cpp`, so they are concrete 64-bit values.

The toolkit's `NANO_ERROR` and `NANO_ASSERT` are defined in `nano/graphics.h`, which is not part of this model. Where the code continues after them, the model returns a `Report` value and continues, as a release build does.

## Model

| member | source | states |
|---|---|---|
| Seqs.Find | nano/ui.cpp:2697-2703 | `std::find`: the index of the first occurrence, or the length when the element is absent; no earlier element matches |
| Seqs.RemoveFirstIsSplice | nano/ui.cpp:2697-2705 | erasing at the found iterator removes exactly the first occurrence and keeps everything before and after it in order |
| Seqs.RemoveFirstAbsent | nano/ui.cpp:2701-2703 | when the element is not found, the list is unchanged |
| Seqs.RemoveFirstMultiset | nano/ui.cpp:2705 | erasing a present element removes one copy of it and shortens the list by one |
| Seqs.RemoveFirstKeepsNoDup | nano/ui.cpp:2695-2706 | erasing from a duplicate-free list keeps it duplicate-free, and the erased element is then gone |
| Seqs.RemoveFirstOfAppended | nano/ui.cpp:2685-2706 | erasing an element just appended to a list that lacked it gives back the list |
| EventTypes.IsMouseEvent | nano/ui.h:597-616 | presses, releases, moves and drags of the three button kinds, and nothing else |
| EventTypes.IsScrollOrDragEvent | nano/ui.h:618-632 | the wheel, moves and the three drags |
| EventTypes.IsClickEvent | nano/ui.h:634-649 | presses and releases of the three button kinds |
| EventTypes.IsKeyEvent | nano/ui.h:651-663 | key down, key up and flags changed |
| EventTypes.IsDownEvent | nano/ui.cpp:1297-1298 | the three press types the event constructor records a click position for |
| EventTypes.ClassificationStructure | nano/ui.h:597-663 | click events and button presses are mouse events; scroll-or-drag events are mouse events or the wheel; key events are in no other class; `none`, entered, exited and the two tablet types are in no class |
| NativeTranslation.EventTypeFromCG | nano/ui.cpp:1219-1280 | never yields `mouse_entered` or `mouse_exited`; yields `none` exactly for unlisted codes |
| NativeTranslation.EventTypeTableRoundTrip | nano/ui.cpp:1219-1280 | each of the sixteen listed codes maps to its named type and back; only `none`, `mouse_entered` and `mouse_exited` have no code |
| NativeTranslation.EventTypeFromCGInjective | nano/ui.cpp:1219-1280 | two different listed codes never map to the same type |
| NativeTranslation.KeyModifiersFromFlags | nano/ui.cpp:1177-1199 | shift, control, alt, command and function are each set iff their flag mask is present; no button bit is set and no bit outside the declared modifiers |
| NativeTranslation.ModifiersFromCG | nano/ui.cpp:1177-1217 | the same five iffs, and the button bits are exactly the one the button number selects |
| NativeTranslation.AtMostOneButton | nano/ui.cpp:1201-1214 | left, right and middle are each set iff the button number is that button; any other number sets none |
| WindowStyle.SetFlagsStyleMask | nano/ui.cpp:1476-1503 | titled, closable, miniaturizable and resizable are each set iff their window flag is; no other bit is set |
| WindowStyle.CreationStyleMask | nano/ui.cpp:1374-1406 | the four bits above, plus full-size content iff `full_size_content_view` and utility window iff `panel`; nothing else |
| WindowStyle.WindowClassName | nano/ui.cpp:1408 | "NSPanel" iff `panel`, otherwise "NSWindow" |
| WindowStyle.StyleMaskRelations | nano/ui.cpp:1381-1503 | `maximizable` and undeclared bits change neither mask; the `set_flags` mask is the creation mask restricted to its four bits, i.e. the creation mask without panel and full size |
| WindowStyle.DefaultFlagsStyle | nano/ui.h:74-84 | `default_flags` gives a titled, closable, miniaturizable, resizable NSWindow; `border_less` gives mask 0 |
| EventRecord.ToInt32 | nano/ui.cpp:1315-1317 | `static_cast<int>` yields a 32-bit value congruent to its input modulo 2^32, and the input itself when it fits |
| EventRecord.MakeEvent | nano/ui.cpp:1285-1321 | press events take the location as position and click position and make it the shared last click; other mouse events report the previous last click; non-mouse events keep position and click position at the defaults and leave the shared value alone; wheel delta only for scroll or drag events; click count only for click events; the modifiers are the translated ones |
| EventRecord.EventSource.NewEvent | nano/ui.cpp:1283-1321 | the constructor, starting from the defaults and updating `s_click_position` in place, builds exactly `MakeEvent` and leaves the shared value `MakeEvent` gives |
| EventRecord.EventSource.constructor | nano/ui.cpp:1283 | the shared click position starts at the origin |
| EventRecord.IsLeftButtonDown | nano/ui.h:691 | the left-button bit of the event's modifiers is set |
| EventRecord.IsMiddleButtonDown | nano/ui.h:693-695 | the middle-button bit is set |
| EventRecord.IsRightButtonDown | nano/ui.h:697-699 | the right-button bit is set |
| EventRecord.IsCommandDown | nano/ui.h:701 | the command bit is set |
| EventRecord.IsShiftDown | nano/ui.h:703 | the shift bit is set |
| EventRecord.IsCtrlDown | nano/ui.h:705 | the control bit is set |
| EventRecord.IsAltDown | nano/ui.h:707 | the alt bit is set |
| EventRecord.IsFunctionDown | nano/ui.h:709 | the function bit is set |
| EventRecord.AccessorsOfMadeEvent | nano/ui.h:691-709 | each `is_*_down` accessor of a built event is true iff the native flag or button it names was present |
| EventRecord.UnchangedWithoutPress | nano/ui.cpp:1294-1305 | a run of events without a press leaves the shared last click unchanged |
| EventRecord.ClickPositionPersists | nano/ui.cpp:1294-1305 | after a press, every later mouse event up to the next press reports the press position as its click position |
| DeferredMessages.AddedKeepsNoDup | nano/ui.cpp:2685-2693 | adding keeps the list duplicate-free and the message on it; adds one copy iff it was absent |
| DeferredMessages.RemoveUndoesAdd | nano/ui.cpp:2685-2706 | removing a message that was newly added restores the list |
| DeferredMessages.AddIdempotent | nano/ui.cpp:2685-2693 | adding the same message twice is the same as adding it once |
| DeferredMessages.MessageList.constructor | nano/ui.cpp:2678-2683 | the list starts empty, with nothing queued |
| DeferredMessages.MessageList.AddMessage | nano/ui.cpp:2685-2693 | leaves the list unchanged if the message is found, otherwise appends it |
| DeferredMessages.MessageList.RemoveMessage | nano/ui.cpp:2695-2706 | erases the first entry with that pointer and nothing else; a no-op when there is none |
| DeferredMessages.MessageList.PostMessage | nano/ui.cpp:2709-2720 | adds the message and queues one block for it; keeps the list duplicate-free with every listed message still queued. The converse, every queued message still listed, is not kept: see `DoublePost` |
| DeferredMessages.MessageList.PostCallback | nano/ui.h:725-743 | a newly allocated callback message, which cannot be on the list since listed messages are alive, is always appended and queued, even when its address is that of a message already called or still pending |
| DeferredMessages.MessageList.RunNext | nano/ui.cpp:2714-2717 | the oldest queued block calls its message and then removes it from the list; the invariant is kept |
| DeferredMessages.MirrorKeptByFreshPost | nano/ui.cpp:2709-2713 | when the list equals the queue, posting a message not yet queued appends it to both, so they stay equal |
| DeferredMessages.MirrorKeptByRun | nano/ui.cpp:2714-2717 | when the list equals the queue, running the oldest block removes exactly the list's first entry, so they stay equal: with only fresh posts each message stays listed until its block runs |
| DeferredMessages.DoublePost | nano/ui.cpp:2685-2720 | posting one message twice queues two blocks but lists it once; when the second block calls it, the list is already empty |
| DeferredMessages.ListBoundedByPending | nano/ui.cpp:2709-2720 | the list is never longer than the queue, so once the queue drains the list is empty |
| Views.NewWindowObject | nano/ui.cpp:1366-1420 | the window gets the creation style mask and class name for its flags, and a transparent title bar iff `full_size_content_view` |
| Views.View.AsWindow | nano/ui.cpp:2180-2183 | a window view has no parent, no children and a window built from its flags |
| Views.View.InParent | nano/ui.cpp:1828-1833 | the new view records its parent and is appended to the end of the parent's children |
| Views.View.InNativeView | nano/ui.cpp:2190-2192 | a view inside a native view has no toolkit parent, no children and no window |
| Views.View.Destroy | nano/ui.cpp:2202-2236 | reports if children remain; with a parent, erases exactly its first entry from the parent's children, or reports and leaves them unchanged when absent |
| Views.DetachRemovesOneEntry | nano/ui.cpp:2215-2225 | for a child listed once, destruction removes exactly that entry; the others keep their order and multiplicity |
| Views.View.IsWindow | nano/ui.cpp:2249 | a view is a window iff it owns a window object |
| Views.View.ProxyNativeHandle | nano/ui.cpp:2259-2261 | the window's handle iff the view is a window, otherwise null, with no report |
| Views.View.ProxyFrame | nano/ui.cpp:2270-2273 | the window's frame, or `rect(0, 0, 0, 0)` and a report for a plain view |
| Views.View.ProxySetFlags | nano/ui.cpp:2275-2280 | on a window the style mask becomes the `set_flags` mask; on a plain view only a report |
| Views.View.ProxySetWindowFrame | nano/ui.cpp:2251-2257 | on a window the frame is replaced; on a plain view only a report |
| Views.SetFlagsAfterCreation | nano/ui.cpp:1476-1503 | `set_flags` with the creation flags gives the creation mask restricted to its four bits |
| Ownership.RetainBalanced | nano/ui.cpp:453-455 | retaining a handle an owner holds, for one more owner, keeps the balance |
| Ownership.ReleaseBalanced | nano/ui.cpp:473-477 | releasing an owner's handle, for one fewer owner, keeps the balance |
| Ownership.AdoptBalanced | nano/ui.cpp:606-607 | a created object gains one count and its creator as one more owner, so the balance is kept whether the object is new or one already held |
| Ownership.ReleaseThenRetainBalanced | nano/ui.cpp:485-494 | release-then-retain between two different owners keeps the balance, even when they hold the same handle |
| Ownership.ImageFromNative | nano/ui.cpp:465-471 | the image holds the handle and scale and adds one retain |
| Ownership.ImageCopy | nano/ui.cpp:449-456 | the copy equals the source and adds one retain |
| Ownership.ImageMove | nano/ui.cpp:458-463 | the new image takes handle and scale; the source is left null with scale 1 |
| Ownership.ImageDestroy | nano/ui.cpp:473-477 | releases the held handle once, and nothing when null |
| Ownership.ImageCopyAssign | nano/ui.cpp:479-497 | the target ends equal to the source; when both hold the same handle no count changes |
| Ownership.ImageMoveAssign | nano/ui.cpp:499-509 | the target takes the source's value, the source ends null with scale 1, and only the target's old handle is released |
| Ownership.ImageCopyAndDestroyBalanced | nano/ui.cpp:449-477 | copy construction and destruction keep every count equal to the number of owners |
| Ownership.ImageCopyAssignBalanced | nano/ui.cpp:479-497 | copy-assignment between two images keeps the balance |
| Ownership.ImageSelfCopyAssign | nano/ui.cpp:479-483 | self-assignment changes neither the image nor any count |
| Ownership.ImageMoveAssignBalanced | nano/ui.cpp:499-509 | move-assignment keeps the balance, with the source's reference passed on without a retain |
| Ownership.FontByName | nano/ui.cpp:601-612 | the font owns one more reference to what the creation returned and keeps the requested size even when that is null |
| Ownership.FontFromFile | nano/ui.cpp:614-644 | no descriptor array, or an empty one, gives a null font of size 0 with no count changed; otherwise the result is what creation by name gives: the requested size, and the created object's count one higher |
| Ownership.FontFromData | nano/ui.cpp:646-671 | null or empty data, a failed data object and a failed descriptor each give a null font of size 0 with no count changed; otherwise the result is what creation by name gives: the requested size, and the created object's count one higher |
| Ownership.FontCreationBalanced | nano/ui.cpp:601-612 | a newly created font is one more owner of its object, which may be shared with fonts created earlier |
| Ownership.FontFromFileBalanced | nano/ui.cpp:614-644 | after a successful creation the font is one more owner of the created object; after an early return the balance is unchanged |
| Ownership.FontFromDataBalanced | nano/ui.cpp:646-671 | after a successful creation the font is one more owner of the created object; after each early return the balance is unchanged |
| Ownership.FontCopy | nano/ui.cpp:673-680 | the copy equals the source and adds one retain |
| Ownership.FontMove | nano/ui.cpp:682-687 | the new font takes handle and size; the source is left null with size 0 |
| Ownership.FontDestroy | nano/ui.cpp:689-693 | releases the held handle once, and nothing when null |
| Ownership.FontCopyAssignAsWritten | nano/ui.cpp:695-708 | copy-assignment as written: the target ends equal to the source, after an unguarded release and retain |
| Ownership.FontSelfAssignUseAfterFree | nano/ui.cpp:695-708 | self-assigning a font that is its object's only owner frees the object and then retains it |
| Ownership.FontSelfAssignExample | nano/ui.cpp:695-708 | a concrete font with count 1, assigned to itself, ends with its object freed and one retain-after-free fault |
| Ownership.FontCopyAssign | nano/ui.cpp:695-708 | with an image-style guard: the target ends equal to the source, same-handle assignment changes no count, and otherwise it behaves as written |
| Ownership.FontCopyAssignBalanced | nano/ui.cpp:695-708 | the guarded assignment keeps the balance between two fonts and for a font assigned to itself |
| Ownership.FontMoveAssign | nano/ui.cpp:710-721 | the target takes the source's value, the source ends null with size 0, and only the target's old handle is released |
| Ownership.FontMoveAssignBalanced | nano/ui.cpp:710-721 | move-assignment keeps the balance |
| Ownership.Image.FromNative | nano/ui.cpp:465-471 | the fields and the shared counts become exactly `ImageFromNative` |
| Ownership.Image.Copy | nano/ui.cpp:449-456 | the fields and counts become exactly `ImageCopy` |
| Ownership.Image.Move | nano/ui.cpp:458-463 | the new image and the emptied source are exactly `ImageMove` |
| Ownership.Image.Destroy | nano/ui.cpp:473-477 | the counts become `ImageDestroy` |
| Ownership.Image.AssignCopy | nano/ui.cpp:479-497 | fields and counts become `ImageCopyAssign`, self-assignment included |
| Ownership.Image.AssignMove | nano/ui.cpp:499-509 | counts and source become `ImageMoveAssign`; the target gets the source's old value unless it is the source |
| Ownership.Font.ByName | nano/ui.cpp:601-612 | fields and counts become `FontByName` |
| Ownership.Font.FromFile | nano/ui.cpp:614-644 | fields and counts become `FontFromFile`, through each early return |
| Ownership.Font.FromData | nano/ui.cpp:646-671 | fields and counts become `FontFromData`, through each early return |
| Ownership.Font.Copy | nano/ui.cpp:673-680 | fields and counts become `FontCopy` |
| Ownership.Font.Move | nano/ui.cpp:682-687 | the new font and the emptied source are exactly `FontMove` |
| Ownership.Font.Destroy | nano/ui.cpp:689-693 | the counts become `FontDestroy` |
| Ownership.Font.AssignCopy | nano/ui.cpp:695-708 | the corrected assignment: fields and counts become `FontCopyAssign` |
| Ownership.Font.AssignMove | nano/ui.cpp:710-721 | counts and source become `FontMoveAssign`; the target gets the source's old value unless it is the source |
| OwnerSlot.DefaultValue | nano/ui.cpp:36-42 | the value-initialised result of each return type: nothing, `NO`, `0`, `nil` |
| OwnerSlot.MemberTrampoline | nano/ui.cpp:356-365 | forwards to the owner when the slot is set, otherwise returns the default; the result always has the method's return type |
| OwnerSlot.Delivery | nano/ui.cpp:301-311 | a notification reaches exactly the owner in the slot, or nobody |
| OwnerSlot.WindowShouldClose | nano/ui.cpp:1719-1726 | asks the owner, and agrees to close when there is none |
| OwnerSlot.ShouldTerminateReply | nano/ui.cpp:2523-2532 | 1 (terminate now) iff the application agrees, 0 (cancel) otherwise |
| OwnerSlot.ShouldTerminateWithoutOwner | nano/ui.cpp:2563-2566 | through the member trampoline, the reply is "terminate now" iff there is an application and it agrees; a null owner cancels |
| OwnerSlot.AdoptProtocol | nano/ui.cpp:316 | `class_addProtocol` succeeds iff the class did not adopt the protocol yet, and afterwards it has |
| OwnerSlot.AddProtocol | nano/ui.cpp:313-330 | succeeds iff the protocol is new to the class and is registered or is forced and allocated; on success it is registered and adopted; unregistered and unforced changes nothing |
| OwnerSlot.AddProtocolTwice | nano/ui.cpp:313-330 | after a successful call, a second call with the same name fails and changes nothing |
| OwnerSlot.TeardownDelivery | nano/ui.cpp:1435-1438 | clearing the slot before the last release means `dealloc` reaches nobody; releasing first would reach the dying owner |
| OwnerSlot.Instance.constructor | nano/ui.cpp:1369-1371 | a new instance has its owner in the slot and one reference |
| OwnerSlot.Instance.SetPointer | nano/ui.cpp:1728 | sets the slot and changes nothing else |
| OwnerSlot.Instance.SendMember | nano/ui.cpp:356-365 | returns `MemberTrampoline` for the current slot and logs a delivery iff the slot is set |
| OwnerSlot.Instance.SendNotification | nano/ui.cpp:301-311 | logs a delivery to the owner iff the slot is set |
| OwnerSlot.Instance.Release | nano/ui.cpp:1709-1717 | drops one reference; the last one deallocates and calls `on_dealloc` on the owner iff the slot is set |
| OwnerSlot.Instance.DestroyOwner | nano/ui.cpp:1822-1823 | clear then release: the owner receives nothing, and the instance is deallocated iff that was its last reference |
| OwnerSlot.ClearedSlotIsInert | nano/ui.cpp:356-365 | with a cleared slot, member methods return the default, notifications reach nobody, and `windowShouldClose:` agrees |
| Application.JoinSnoc | nano/ui.cpp:2634-2637 | appending an argument appends a space and the argument to the joined string |
| Application.TerminatedIsJoin | nano/ui.cpp:2634-2639 | the loop's string, every argument followed by a space, is the join plus one trailing space |
| Application.SplitJoin | nano/ui.cpp:2628-2642 | joining arguments that contain no space is undone by splitting at spaces |
| Application.App.InitializeApplication | nano/ui.cpp:2646-2656 | the stored arguments are the first `argc` entries of `argv`, in order |
| Application.App.GetCommandLineArguments | nano/ui.cpp:2628-2642 | for a non-empty list, the arguments separated by single spaces with no trailing space |
| ClassNames.AlphanumTable | nano/ui.cpp:192-194 | the table has 62 entries, all digits or letters |
| ClassNames.AlphanumAt | nano/ui.cpp:192-196 | indices 0-61 give a digit or letter; index 62, counted by `sizeof`, gives NUL |
| ClassNames.GenerateRandomAlphanumString | nano/ui.cpp:191-209 | a string of the requested length whose i-th character is the table entry of the i-th draw |
| ClassNames.NulInSuffixAsWritten | nano/ui.cpp:196-206 | as written, the distribution's upper bound is 62, and the draw 62 puts a NUL in the string |
| ClassNames.GeneratedIsAlphanumeric | nano/ui.cpp:201-206 | with draws from 0 to 61, every character is a digit or letter and none is NUL |
| ClassNames.ClassName | nano/ui.cpp:215-218 | the corrected class name, with draws from 0 to 61: the root followed by ten digits or letters |
| ClassNames.CString | nano/ui.cpp:217 | `c_str()` as C reads it: the longest NUL-free prefix, ending just before the first NUL |
| ClassNames.CStringAppend | nano/ui.cpp:217 | a NUL-free root passes through whole, followed by the suffix cut at its first NUL |
| ClassNames.NulOnlyFromLastDraw | nano/ui.cpp:196-206 | the generated string contains a NUL iff some draw was 62 |
| ClassNames.ClassNameAsWritten | nano/ui.cpp:191-218 | the name as written: NUL-free, starting with the root, at most ten characters longer; it is the full corrected name iff no draw was 62, and otherwise is cut short |

## Left out

- The Objective-C runtime itself: message sending, `class_addMethod`, instance variables, class registration and disposal, `send_superclass_message`. Only the decisions made around those calls are modelled.
- Drawing, text measurement, `draw_text` alignment, `image::get_scaled_size` and the image loaders `image(filepath)`. These are CoreGraphics/CoreText calls with floating-point arithmetic.
- Menus, the web view, `run`, window title/centring/focus, and coordinate conversion. These forward directly to AppKit. The window frame is an input to `Views.NewWindowObject`.
- `dispatch_async` in `post_message`: the main queue is a sequence of pending blocks, run in order by `RunNext`; threads and timing are not modelled.
- `nano/graphics.h` is not part of this model. Points, rectangles and the `NANO_ERROR`/`NANO_ASSERT` macros come from it. Points are pairs of reals that are only copied. The location in the view arrives as a `point<int>`. Errors are reported and execution continues.
- EventRecord.MakeEvent: the CoreGraphics event is an input record, so the value a real event returns for the button-number field is not modelled. This matters for non-mouse events, because the button number is read for every event.
- EventRecord.MakeEvent: the `float`/`CGFloat` narrowing of the position and wheel delta is not modelled.
- Ownership: `CFRelease` of the temporary strings, URLs, descriptor arrays and data objects inside the font constructors is not modelled. Only the font object's own count is tracked.
- Ownership.FontByName: the model follows the code, which keeps the requested size when `CTFontCreateWithName` returns null. The file and data constructors do the same when their final `CTFontCreateWithFontDescriptor` returns null (nano/ui.cpp:639-643, 667-670); they set the size to 0 only on their early returns.
- Ownership.FontFromFile: on the early returns the source never assigns `m_native`; the model takes it to be null, which relies on the member's default initialiser in `nano/graphics.h`, not part of this model. The same holds for Ownership.FontFromData and the `Font` constructors.
- Message lifetime: the block `post_message` queues captures only a raw `message*`, and the list's `shared_ptr` is what keeps the message alive. The model tracks list entries and queued blocks, not `shared_ptr` reference counts. A message posted twice is listed once but queued twice, so its second block runs after the list has dropped it (`DeferredMessages.DoublePost`). Whether it is then freed depends on references held elsewhere, which the model does not follow.
- Ownership.Image.AssignMove: when the image is moved into itself, the contract gives only the source's final value, which is the target's final value too.
- Ownership.Font.AssignMove: when the font is moved into itself, the contract gives only the source's final value, which is the target's final value too.
- The `application::native` destructor sets the application delegate to nil and releases its instance without clearing the owner slot. Unlike the window and view destructors, it is not modelled as `OwnerSlot.Instance.DestroyOwner`.
- `on_did_add_subview` and `on_did_remove_subview` are virtual hooks with empty defaults. `removeFromSuperview` and `addSubview:` are AppKit calls. None of them is modelled.
- ClassNames.GenerateRandomAlphanumString: the default-seeded `std::mt19937` is an input sequence of draws. Because the engine is re-created with the same seed on every call, every call yields the same suffix. The model does not capture this determinism.
- Application.App.InitializeApplication: `application::prepare()`, the virtual hook called afterwards, is not modelled.

## Findings

| source | as written | input that shows it | evidently intended | confidence | as-written member | corrected member |
|---|---|---|---|---|---|---|
| nano/ui.cpp:695-708 | `font::operator=(const font&)` releases the old handle before retaining the new one, with no self or same-handle check | a font whose object has retain count 1, assigned to itself: the release frees the object, then `CFRetain` is called on it | the same-handle guard that `image::operator=` has (nano/ui.cpp:480-483) | not executed | Ownership.FontSelfAssignUseAfterFree | Ownership.FontCopyAssign |
| nano/ui.cpp:196-202 | `alphanumSize = sizeof(alphanum)` counts the terminating NUL, so `uniform_int_distribution(0, alphanumSize - 1)` can draw 62 | the draw 62 picks `alphanum[62] == '\0'`, which cuts the generated class name short when passed as a C string | draws from 0 to 61, giving only digits and letters | not executed | ClassNames.NulInSuffixAsWritten | ClassNames.GeneratedIsAlphanumeric |
