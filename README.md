# ilixi widget core, application registries and the compositor thumbnail, in Dafny

This project models four parts of the ilixi user-interface toolkit for DirectFB:

- **The widget tree node** (`Widgets.Widget`, ilixi/ui/Widget.h):
  - its parent and its children in paint order, with the add, remove, raise and lower operations;
  - its state flags, and the enabled and visible properties that a widget inherits from its ancestors;
  - its input method and keyboard focus;
  - its four focus-navigation neighbours;
  - its minimum and maximum sizes and resize constraints;
  - its relative geometry, its absolute frame, and the mappings between window and local coordinates.
- **The application's registries** (`Apps.AppBase`, ilixi/core/AppBase.h):
  - its title and application state flags;
  - the callbacks that `runCallbacks` executes;
  - the surface event listeners;
  - the managed windows and the single active window.
- **The list box's item model** (`ListBoxes.ListBox`, ilixi/ui/ListBox.h): an ordered list of item widgets with a current index and a current item.
- **The compositor's application thumbnail** (`Thumbnails.AppThumbnail`, bin/compositor/AppThumbnail.cpp):
  - its default state;
  - its preferred size;
  - the focused and selected signals it emits in reply to input.

These are the modules:

- `Lists` (lists.dfy) holds the value-level list operations. The headers declare the children, items and registries as `std::list` members and do not show the method bodies, so the model reads each operation as one of these list operations:
  - find;
  - erase at a position, erase a value, insert at a position;
  - move an element to either end;
  - swap two neighbours.

  Each comes with the properties the widget and list-box operations rely on.
- `Geometry` (geometry.dfy) holds points, sizes and rectangles.
- `Widgets` (widget.dfy), `ListBoxes` (listbox.dfy), `Apps` (appbase.dfy) and `Thumbnails` (appthumbnail.dfy) hold one class each. Each class holds the fields its C++ class updates in place, plus three records that have no C++ field: the widget's count of `focusOutEvent` calls (`focusOutCalls`), the application's trace of callback runs (`executed`), and the thumbnail's trace of emitted signals (`signals`). Each method states the whole new state it leaves, or its result, in terms of the `Lists` functions.

Several behaviours are only declared in the headers: their bodies are not part of this model. The model fixes them as follows (the same choices are repeated under "## Left out" where they weaken a promise):

- **Children order.** `children` is the paint order.
  - The first element is painted first and lies at the bottom.
  - The last element is the *front*: it is painted last and offered pointer events first.
  - `raiseChildToFront` moves a child to the end of the list, and `lowerChildToBottom` moves it to the start.
  - `raiseChild` and `lowerChild` exchange a child with its neighbour toward the front or the bottom. They return false, changing nothing, when the child is already at that end.
- **Inherited flags.** `enabled()` and `visible()` are false when the widget or any ancestor is disabled or invisible. The model passes the ancestor chain explicitly (`IsLineage`), and proves that a widget has only one such chain (`LineageUnique`).
- **Current-item policy.** The list box always keeps its current item equal to the item at its current index. After an insertion or a removal, it keeps the index and reads the item again.
  - Inserting past the end appends.
  - The setters ignore an index past the end, or an item that is not in the list.
- **Registries.** `addCallback`, `addSurfaceEventListener` and `addWindow` refuse null and an entry that is already registered, and the removals refuse an entry that is not. The header only says that they add or remove.
- **One application.** The registry methods are `static` in the C++ class and act on its single instance. The model makes them methods of one `AppBase` object.
- **Duplicate items.** The list box accepts the same item more than once; `removeItem(Widget*)` erases only its first occurrence.
- **addChild.** It appends the child and makes this widget its parent. It fails on null or on a widget that is already a child. It does not take the child out of a former parent's list.

The comment on `addChild` says the child becomes owned by the widget it is added to (ilixi/ui/Widget.h:771). The header does not show what happens to a child that already has another owner, so the model does not take it out of the former parent's list, and a single owner per child is not enforced (see "## Left out").

## Model

| member | source | states |
|---|---|---|
| Lists.MoveToEndKeepsOthers | ilixi/ui/Widget.h:790-798 | moving a child to the front keeps every other child, in the same relative order, and keeps the list duplicate-free |
| Lists.MoveToStartKeepsOthers | ilixi/ui/Widget.h:800-806 | moving a child to the bottom keeps every other child, in the same relative order, and keeps the list duplicate-free |
| Lists.SwapMovesByOne | ilixi/ui/Widget.h:808-822 | exchanging a child with its neighbour moves it exactly one place, moves the neighbour one place the other way, and keeps the list duplicate-free |
| Lists.RemoveAppended | ilixi/ui/Widget.h:770-788 | adding a new child and then removing it gives back the original children, in their order |
| Lists.RemoveDistinct | ilixi/ui/Widget.h:780-788 | erasing a value from a duplicate-free list leaves it duplicate-free and without the value |
| Lists.IndexOf | ilixi/ui/Widget.h:754-762 | the find helper on the `std::list` members: -1 exactly when the value is absent; otherwise the position holds the value and is its first occurrence |
| Lists.Remove | ilixi/ui/ListBox.h:69-70 | erasing a value that is absent changes nothing; erasing a present one drops exactly one copy and keeps every other element |
| Widgets.Widget.constructor | ilixi/ui/Widget.h:56-61 | a new widget has the given parent, no children, the default state, no input capability, the unconstrained resize policy on both axes, and no neighbours |
| Widgets.Widget.IsChild | ilixi/ui/Widget.h:764-768 | true exactly when the argument is non-null and a search of the children finds it |
| Widgets.Widget.AddChild | ilixi/ui/Widget.h:770-778 | succeeds exactly when the argument is non-null and not yet a child; on success the child is appended at the front and its parent becomes this widget; on failure nothing changes; no field other than this widget's children and the child's parent is touched |
| Widgets.Widget.RemoveChild | ilixi/ui/Widget.h:780-788 | succeeds exactly when the argument is a child; afterwards it is not a child and the other children keep their order |
| Widgets.Widget.RaiseChildToFront | ilixi/ui/Widget.h:790-798 | succeeds exactly when the argument is a child; the child becomes the front child and the others keep their relative order |
| Widgets.Widget.LowerChildToBottom | ilixi/ui/Widget.h:800-806 | succeeds exactly when the argument is a child; the child becomes the bottom child and the others keep their relative order |
| Widgets.Widget.RaiseChild | ilixi/ui/Widget.h:808-814 | succeeds exactly when the argument is a child that is not at the front; it then moves one place toward the front; the children stay a permutation of the old ones |
| Widgets.Widget.LowerChild | ilixi/ui/Widget.h:816-822 | succeeds exactly when the argument is a child that is not at the bottom; it then moves one place toward the bottom; the children stay a permutation of the old ones |
| Widgets.Widget.LineageUnique | ilixi/ui/Widget.h:957-959 | the parent links determine a widget's ancestor chain uniquely |
| Widgets.Widget.CycleHasNoLineage | ilixi/ui/Widget.h:218-236 | a widget on a cycle of parent links (its own parent, or an ancestor's child that is also its ancestor) has no ancestor chain ending in a root, so the model defines neither enabled() nor visible() for it |
| Widgets.Widget.FlagClear | ilixi/ui/Widget.h:218-236 | asking the widget and then its parent amounts to: the flag is unset on the widget and on every ancestor |
| Widgets.Widget.InheritedFromParent | ilixi/ui/Widget.h:218-236 | a child is enabled (visible) only if its parent is enabled (visible) |
| Widgets.Widget.Enabled | ilixi/ui/Widget.h:218-226 | enabled exactly when neither the widget nor any ancestor is disabled |
| Widgets.Widget.Visible | ilixi/ui/Widget.h:228-236 | visible exactly when neither the widget nor any ancestor is invisible |
| Widgets.Widget.AcceptsPointerInput | ilixi/ui/Widget.h:272-276 | true exactly when the widget has pointer capability and it and all its ancestors are enabled and visible |
| Widgets.Widget.AcceptsKeyInput | ilixi/ui/Widget.h:278-282 | true exactly when the widget has key capability and it and all its ancestors are enabled and visible |
| Widgets.Widget.SetFocus | ilixi/ui/Widget.h:481-487 | hasFocus() afterwards is true exactly when it was true before or the widget accepts key input; no other state flag changes |
| Widgets.Widget.ClearFocus | ilixi/ui/Widget.h:489-495 | hasFocus() afterwards is false and every other flag is kept; focusOutEvent is called once exactly when hasFocus() was true before |
| Widgets.Widget.SetEnabled | ilixi/ui/Widget.h:453-457 | drops the disabled flag and keeps every other flag |
| Widgets.Widget.SetDisabled | ilixi/ui/Widget.h:459-463 | raises the disabled flag and keeps every other flag |
| Widgets.Widget.SetVisible | ilixi/ui/Widget.h:465-473 | drops the invisible flag for true, raises it for false, and keeps every other flag |
| Widgets.Widget.SetOpacity | ilixi/ui/Widget.h:475-479 | the opacity becomes the given 8-bit value |
| Widgets.Widget.SetInputMethod | ilixi/ui/Widget.h:497-503 | the input method becomes the given capability set |
| Widgets.Widget.SetPointerTracking | ilixi/ui/Widget.h:505-512 | the tracking capability is present exactly when requested; the other capabilities are kept |
| Widgets.Widget.SetNeighbour | ilixi/ui/Widget.h:579-592 | getNeighbour in the given direction afterwards returns the given widget; the other three neighbours are unchanged |
| Widgets.Widget.SetNeighbours | ilixi/ui/Widget.h:594-603 | the top, bottom, left and right neighbours become the four given widgets |
| Widgets.Widget.SetMinimumSize | ilixi/ui/Widget.h:385-393 | the minimum size becomes the given size |
| Widgets.Widget.SetMaximumSize | ilixi/ui/Widget.h:406-414 | the maximum size becomes the given size |
| Widgets.Widget.SetXConstraint | ilixi/ui/Widget.h:427-433 | the horizontal resize constraint becomes the given one |
| Widgets.Widget.SetYConstraint | ilixi/ui/Widget.h:435-441 | the vertical resize constraint becomes the given one |
| Widgets.Widget.SetConstraints | ilixi/ui/Widget.h:443-451 | both resize constraints become the given ones |
| Widgets.Widget.AbsX | ilixi/ui/Widget.h:91-96 | the absolute x coordinate is where the widget's local origin lies in window coordinates |
| Widgets.Widget.AbsY | ilixi/ui/Widget.h:98-103 | the absolute y coordinate is where the widget's local origin lies in window coordinates |
| Widgets.Widget.MoveTo | ilixi/ui/Widget.h:307-323 | the position relative to the parent becomes the given point, and the geometry is marked modified |
| Widgets.Widget.SetX | ilixi/ui/Widget.h:325-331 | only the x coordinate of the relative position changes; the geometry is marked modified |
| Widgets.Widget.SetY | ilixi/ui/Widget.h:333-339 | only the y coordinate of the relative position changes; the geometry is marked modified |
| Widgets.Widget.SetHeight | ilixi/ui/Widget.h:341-347 | only the height changes; the geometry is marked modified |
| Widgets.Widget.SetWidth | ilixi/ui/Widget.h:349-355 | only the width changes; the geometry is marked modified |
| Widgets.Widget.SetSize | ilixi/ui/Widget.h:357-372 | the size becomes the given one and the frame's corner is kept; the geometry is marked modified |
| Widgets.Widget.SetGeometry | ilixi/ui/Widget.h:374-383 | the relative position and the size become the given ones; the geometry is marked modified |
| Widgets.Widget.UpdateFrameGeometry | ilixi/ui/Widget.h:839-844 | the absolute position becomes the parent's absolute position plus the relative position (the relative position alone without a parent); the size is kept and the modified mark is cleared |
| Widgets.Widget.MapToSurface | ilixi/ui/Widget.h:605-622 | maps a rectangle in window coordinates into local coordinates: shifting the result by the absolute position gives back the input |
| Widgets.Widget.MapPointToSurface | ilixi/ui/Widget.h:624-630 | maps a point in window coordinates into local coordinates: shifting the result by the absolute position gives back the input |
| Widgets.Widget.MapFromSurface | ilixi/ui/Widget.h:632-649 | maps a rectangle in local coordinates into window coordinates: shifting the result back by the absolute position gives back the input |
| Widgets.Widget.MapPointFromSurface | ilixi/ui/Widget.h:651-657 | maps a point in local coordinates into window coordinates: shifting the result back by the absolute position gives back the input |
| Widgets.Widget.MappingRoundTrip | ilixi/ui/Widget.h:605-657 | mapping into local coordinates and back (and the other way round) is the identity, for rectangles and points |
| ListBoxes.ListBox.constructor | ilixi/ui/ListBox.h:37 | a new list box has no items, current index 0 and no current item |
| ListBoxes.ListBox.Count | ilixi/ui/ListBox.h:51-52 | the count is the number of indices that hold an item: every index below it does, none at or above it |
| ListBoxes.ListBox.CurrentItem | ilixi/ui/ListBox.h:54-55 | the current item is none or an item of the list, the one at the current index |
| ListBoxes.ListBox.CurrentIndex | ilixi/ui/ListBox.h:57-58 | the item at the current index is the current item |
| ListBoxes.ListBox.ItemIndex | ilixi/ui/ListBox.h:60-61 | -1 exactly when the item is not in the list; otherwise the index of its first occurrence |
| ListBoxes.ListBox.ItemAtIndex | ilixi/ui/ListBox.h:63-64 | a non-null result is an item of the list whose first occurrence is at or before the index; null exactly when the index is past the end |
| ListBoxes.ListBox.ItemRoundTrip | ilixi/ui/ListBox.h:60-64 | looking an item up by its own index gives the item back |
| ListBoxes.ListBox.AddItem | ilixi/ui/ListBox.h:45-46 | appends the item; the count grows by one and the current item stays the item at the current index |
| ListBoxes.ListBox.InsertItem | ilixi/ui/ListBox.h:66-67 | inserts the item so that it sits at the index, or appends it when the index is past the end; the count grows by one |
| ListBoxes.ListBox.RemoveItem | ilixi/ui/ListBox.h:69-70 | succeeds exactly when the item is in the list, and then erases its first occurrence; otherwise nothing changes |
| ListBoxes.ListBox.RemoveItemAt | ilixi/ui/ListBox.h:72-73 | succeeds exactly when the index is in range, and then erases the item there; otherwise nothing changes |
| ListBoxes.ListBox.Clear | ilixi/ui/ListBox.h:48-49 | no items remain, the current index is 0 and there is no current item |
| ListBoxes.ListBox.SetCurrentItemAt | ilixi/ui/ListBox.h:78-79 | an index in range becomes current together with its item; an index past the end changes nothing |
| ListBoxes.ListBox.SetCurrentItem | ilixi/ui/ListBox.h:81-82 | an item in the list becomes current together with its index; any other item changes nothing |
| Apps.AppBase.constructor | ilixi/core/AppBase.h:59 | a new application has no callbacks, listeners or windows, and no active window |
| Apps.AppBase.SetTitle | ilixi/core/AppBase.h:72-82 | title() afterwards returns the given string |
| Apps.AppBase.SetAppState | ilixi/core/AppBase.h:103-113 | appState() afterwards has every given bit raised and the other bits as they were |
| Apps.AppBase.ClearAppState | ilixi/core/AppBase.h:115-119 | clears every given state bit and leaves the other bits as they were |
| Apps.AppBase.AddCallback | ilixi/core/AppBase.h:184-188 | succeeds exactly when the callback is non-null and not registered, and then appends it; the registry stays duplicate-free |
| Apps.AppBase.RemoveCallback | ilixi/core/AppBase.h:190-194 | succeeds exactly when the callback is registered; afterwards it is not registered and the others keep their order |
| Apps.AppBase.RunCallbacks | ilixi/core/AppBase.h:196-200 | runs every registered callback once, in registration order |
| Apps.AppBase.AddSurfaceEventListener | ilixi/core/AppBase.h:202-206 | succeeds exactly when the listener is non-null and not registered, and then appends it |
| Apps.AppBase.RemoveSurfaceEventListener | ilixi/core/AppBase.h:208-212 | succeeds exactly when the listener is registered; afterwards it is not registered and the others keep their order |
| Apps.AppBase.SetActiveWindow | ilixi/core/AppBase.h:220-230 | activeWindow() afterwards returns the given window, the one active window |
| Apps.AppBase.AddWindow | ilixi/core/AppBase.h:232-236 | succeeds exactly when the window is non-null and not yet managed, and then appends it |
| Apps.AppBase.RemoveWindow | ilixi/core/AppBase.h:238-242 | succeeds exactly when the window is managed; afterwards it is not managed and the others keep their order |
| Thumbnails.Emitted | bin/compositor/AppThumbnail.cpp:60-91 | selected is emitted exactly for a button release or a space-key release; focused exactly for a button release or focus gain; each at most once, and focused before selected |
| Thumbnails.SelectedOncePerConfirmation | bin/compositor/AppThumbnail.cpp:60-72 | over any run of input, selected is emitted exactly as many times as there were confirming events |
| Thumbnails.AppThumbnail.constructor | bin/compositor/AppThumbnail.cpp:31-43 | a new thumbnail is hidden, accepts key and pointer input, has a fixed size on both axes, and has emitted nothing |
| Thumbnails.AppThumbnail.HiddenIsNotVisible | bin/compositor/AppThumbnail.cpp:42 | a hidden thumbnail is neither visible nor accepting key or pointer input, whatever its ancestors |
| Thumbnails.AppThumbnail.PreferredSize | bin/compositor/AppThumbnail.cpp:49-53 | the preferred size is 196 by 196 pixels |
| Thumbnails.AppThumbnail.PointerButtonUpEvent | bin/compositor/AppThumbnail.cpp:60-65 | emits focused with the thumbnail, then selected |
| Thumbnails.AppThumbnail.KeyUpEvent | bin/compositor/AppThumbnail.cpp:67-72 | emits selected when the released key is space (DIKS_SPACE), and nothing otherwise |
| Thumbnails.AppThumbnail.FocusInEvent | bin/compositor/AppThumbnail.cpp:74-82 | emits focused with the thumbnail |
| Thumbnails.AppThumbnail.FocusOutEvent | bin/compositor/AppThumbnail.cpp:84-91 | emits nothing and changes nothing |

## Left out

- DirectFB, threads and mutexes: `initDFB`, `releaseDFB`, `handleEvents`, `consumeWindowEvent`, `consumeSurfaceEvent`, `updateWindows`, `attachDFBWindow`, `detachDFBWindow` and the mutexes that serialise the registries. These talk to the display server or the OS; the registries are modelled as single-threaded.
- Painting: `paint`, `repaint`, `update`, `compose`, `paintChildren`, `updateSurface`, surfaces and the stylist. They produce pixels.
- Input dispatch: `consumePointerEvent` and `consumeKeyEvent`, and the event manager that moves focus between widgets. The event manager is not part of this model.
- The virtual size hooks `preferredSize` and `heightForWidth` of the base widget, and the layouts that consult the minimum, maximum and constraints. Only the thumbnail's own preferred size is modelled.
- Widgets.Widget.RemoveChild: does not model the deletion of the removed child, because object destruction has no counterpart here.
- Widgets.Widget.AddChild: does not take the child out of a former parent's children. The code does not promise to, so a widget added twice to different parents appears in both lists.
- Widgets.Widget.RaiseChild: the result at the front end (false, nothing changes) is a modelling choice, because the body is not part of this model.
- Widgets.Widget.LowerChild: the result at the bottom end (false, nothing changes) is a modelling choice, for the same reason.
- Widgets.Widget.ClearFocus: records each call of focusOutEvent as a count; what the handler does is the business of the widget subclass.
- Widgets.Widget.SetMinimumSize: stores the bound; the widget does not enforce that its size is never smaller. The size setters do not clamp, because the header ties the bound to layouts: it overrides the layout resize constraints (ilixi/ui/Widget.h:975-982), and layouts are not part of this model.
- Widgets.Widget.SetMaximumSize: stores the bound; the widget does not enforce that its size is never larger, for the same reason (ilixi/ui/Widget.h:984-991).
- Widgets.Widget.Enabled / Widgets.Widget.Visible: take the ancestor chain as an explicit argument, pinned down by `IsLineage`, instead of following parent pointers, so they are defined only for acyclic parent chains (`CycleHasNoLineage`). `AddChild` does not refuse this widget itself or one of its ancestors, because the header shows no such check, so a tree built that way has no enabled, visible, key- or pointer-accepting state in the model.
- Widgets.Widget.AbsX / Widgets.Widget.AbsY: always return the frame origin; the dependence on the widget's geometry flag and on whether it has a parent (ilixi/ui/Widget.h:93, 100) is not modelled.
- Widgets.Widget.SetFocus: sets only the widget's own focus flag. Taking focus from the previous holder and calling the focus event handlers belong to the event manager.
- Widgets.Widget.UpdateFrameGeometry: does not propagate the new frame to the children or emit `sigGeometryUpdated`. It also does not model the surface flags that decide whether `absX` and `absY` are window-relative.
- The integer overloads of `moveTo`, `setMinimumSize`, `setMaximumSize`, `setSize` and `mapToSurface`/`mapFromSurface`. They do the same as the value-type versions that are modelled.
- Integer widths: the C++ `int` coordinates and sizes and the `unsigned int` count and indices of the list box are unbounded integers here, so the overflow of C++ arithmetic (for example the subtraction in `mapToSurface`) is not modelled.
- ListBoxes.ListBox.constructor: takes no parent argument, because the list box's place in the widget tree (`ListBox(Widget* parent = 0)`) is not part of its item model.
- The copy constructor of `Widget`, and the `AppBase(argc, argv)` constructor, which parses options for DirectFB.
- The encodings of the state, the input method and the resize constraints are abstractions (sets and a record of grow/shrink/expand flags), because Enums.h is not part of this model. The order of the neighbour slots (up, down, left, right) is also assumed.
- Apps.AppBase.SetAppState / Apps.AppBase.ClearAppState: the state is a set of bit positions with no fixed width; the 32-bit representation of `IMaestro::AppState` is not modelled.
- Apps.AppBase.RunCallbacks: records each run in a trace instead of executing the callback's body. Callbacks that add or remove callbacks while the list is being run are not modelled.
- Apps.AppBase.RemoveWindow: does not clear the active window when that window is removed; the header does not say it does.
- ListBoxes.ListBox.AddItem / ListBoxes.ListBox.InsertItem: take non-null widgets, so the null-item case is excluded by the type.
- The list box's orientation, its scroll area and layout, `trackItem`, `updateListBoxGeometry`, and its signals (`sigItemChanged`, `sigIndexChanged`, `sigItemClicked`, `sigItemSelected`). These belong to drawing and input dispatch.
- The thumbnail's opacity tween: its 300 ms animation, `tweenSlot` and the commented-out fades in the focus handlers. They are animation timing.
- The thumbnail's compositor and application-instance arguments, and `AppCompositor`, which are not part of this model.
- The signal machinery of sigc++: emissions are recorded as a trace of `Signal` values, and the connected slots are not run.
- The status bar, image dialog, component data and horizontal switcher, which are outside the modelled core.
