/**
 * The application's registries: its title, its state flags, the managed
 * windows with the single active window, the callbacks that runCallbacks
 * executes, and the surface event listeners.
 */
module Apps {
  import opened Lists
  import opened Widgets

  /** A callback that runCallbacks executes; what it does when run is the owner's business. */
  class Callback {
  }

  /** An object that receives the events of one surface. */
  class SurfaceEventListener {
  }

  /** A value of IMaestro::AppState, as the set of the bit positions it raises. */
  type AppStateFlags = set<nat>

  class AppBase {
    var title: string
    /** The application state flags. */
    var state: AppStateFlags
    /** Callbacks in registration order, which is also their execution order. */
    var callbacks: seq<Callback>
    var listeners: seq<SurfaceEventListener>
    /** The managed windows (window widgets), in the order they were added. */
    var windows: seq<Widget>
    /** The window with focus; one pointer, so at most one window is active. */
    var activeWindow: Widget?
    /** Every callback execution so far, oldest first. */
    var executed: seq<Callback>

    /** No registry lists an entry twice. */
    ghost predicate Valid()
      reads this
    {
      Distinct(callbacks) && Distinct(listeners) && Distinct(windows)
    }

    constructor ()
      ensures Valid()
      ensures callbacks == [] && listeners == [] && windows == []
      ensures activeWindow == null && executed == []
    {
      title := "";
      state := {};
      callbacks := [];
      listeners := [];
      windows := [];
      activeWindow := null;
      executed := [];
    }

    // ---- title and state -------------------------------------------------

    function Title(): string
      reads this
    {
      title
    }

    method SetTitle(t: string)
      modifies this`title
      ensures Title() == t
    {
      title := t;
    }

    function AppState(): AppStateFlags
      reads this
    {
      state
    }

    /** Raises the bits of s and leaves every other bit as it was. */
    method SetAppState(s: AppStateFlags)
      modifies this`state
      ensures s <= AppState()
      ensures AppState() - s == old(AppState()) - s
    {
      state := state + s;
    }

    /** Clears the bits of s and leaves every other bit as it was. */
    method ClearAppState(s: AppStateFlags)
      modifies this`state
      ensures AppState() * s == {}
      ensures AppState() - s == old(AppState()) - s
    {
      state := state - s;
    }

    // ---- callbacks -------------------------------------------------------

    /** Appends cb; fails on null or on a callback already registered. */
    method AddCallback(cb: Callback?) returns (ok: bool)
      requires Valid()
      modifies this`callbacks
      ensures Valid()
      ensures ok == (cb != null && cb !in old(callbacks))
      ensures callbacks == if ok then old(callbacks) + [cb] else old(callbacks)
    {
      if cb == null || cb in callbacks {
        return false;
      }
      callbacks := callbacks + [cb];
      return true;
    }

    /** Erases cb; fails when it is not registered. */
    method RemoveCallback(cb: Callback?) returns (ok: bool)
      requires Valid()
      modifies this`callbacks
      ensures Valid()
      ensures ok == (cb != null && cb in old(callbacks))
      ensures callbacks == Remove(old(callbacks), cb) && cb !in callbacks
    {
      RemoveDistinct(callbacks, cb);
      ok := cb != null && cb in callbacks;
      callbacks := Remove(callbacks, cb);
    }

    /** Runs every registered callback once, in registration order. */
    method RunCallbacks()
      modifies this`executed
      ensures executed == old(executed) + callbacks
    {
      var i := 0;
      while i < |callbacks|
        invariant 0 <= i <= |callbacks|
        invariant executed == old(executed) + callbacks[..i]
      {
        executed := executed + [callbacks[i]];
        i := i + 1;
      }
      assert callbacks[..i] == callbacks;
    }

    // ---- surface event listeners -----------------------------------------

    method AddSurfaceEventListener(sel: SurfaceEventListener?) returns (ok: bool)
      requires Valid()
      modifies this`listeners
      ensures Valid()
      ensures ok == (sel != null && sel !in old(listeners))
      ensures listeners == if ok then old(listeners) + [sel] else old(listeners)
    {
      if sel == null || sel in listeners {
        return false;
      }
      listeners := listeners + [sel];
      return true;
    }

    method RemoveSurfaceEventListener(sel: SurfaceEventListener?) returns (ok: bool)
      requires Valid()
      modifies this`listeners
      ensures Valid()
      ensures ok == (sel != null && sel in old(listeners))
      ensures listeners == Remove(old(listeners), sel) && sel !in listeners
    {
      RemoveDistinct(listeners, sel);
      ok := sel != null && sel in listeners;
      listeners := Remove(listeners, sel);
    }

    // ---- windows ---------------------------------------------------------

    function ActiveWindow(): Widget?
      reads this
    {
      activeWindow
    }

    method SetActiveWindow(w: Widget?)
      modifies this`activeWindow
      ensures ActiveWindow() == w
    {
      activeWindow := w;
    }

    /** Appends window to the managed windows; fails on null or a window already managed. */
    method AddWindow(window: Widget?) returns (ok: bool)
      requires Valid()
      modifies this`windows
      ensures Valid()
      ensures ok == (window != null && window !in old(windows))
      ensures windows == if ok then old(windows) + [window] else old(windows)
    {
      if window == null || window in windows {
        return false;
      }
      windows := windows + [window];
      return true;
    }

    /** Erases window from the managed windows; fails when it is not managed. */
    method RemoveWindow(window: Widget?) returns (ok: bool)
      requires Valid()
      modifies this`windows
      ensures Valid()
      ensures ok == (window != null && window in old(windows))
      ensures windows == Remove(old(windows), window) && window !in windows
    {
      RemoveDistinct(windows, window);
      ok := window != null && window in windows;
      windows := Remove(windows, window);
    }
  }
}
