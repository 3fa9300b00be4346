/**
 * A node of the widget tree: its children in paint order, its state flags
 * and input capabilities, its four focus-navigation neighbours, its
 * size limits and resize constraints, and its relative and absolute
 * geometry with the mappings between window and local coordinates.
 */
module Widgets {
  import opened Lists
  import opened Geometry

  /** An 8-bit unsigned value (u8). */
  newtype Byte = x: int | 0 <= x < 256

  /** The bits of a widget's state; an empty set is the default state. */
  datatype StateFlag = Pressed | Focused | Exposed | Disabled | Invisible

  /** The capabilities a widget's input method can include. */
  datatype Capability = KeyCapability | PointerCapability | TrackingCapability

  const NoInput: set<Capability> := {}
  const KeyInput: set<Capability> := {KeyCapability}
  const PointerInput: set<Capability> := {PointerCapability}
  const KeyAndPointerInput: set<Capability> := {KeyCapability, PointerCapability}

  /** How a layout may resize a widget along one axis. */
  datatype ResizeConstraint = ResizeConstraint(canGrow: bool, canShrink: bool, canExpand: bool)

  /** The layout keeps the widget at its preferred size. */
  const FixedConstraint := ResizeConstraint(false, false, false)
  /** The layout may grow or shrink the widget. */
  const NoConstraint := ResizeConstraint(true, true, false)

  /** The four directions of focus navigation. */
  datatype Direction = Up | Down | Left | Right
  {
    /** The slot of the neighbour table that holds the neighbour in this direction. */
    function Slot(): (i: nat)
      ensures i < 4
    {
      match this
      case Up => 0
      case Down => 1
      case Left => 2
      case Right => 3
    }
  }

  /** Different directions use different slots. */
  lemma SlotsDiffer(d: Direction, e: Direction)
    ensures d != e ==> d.Slot() != e.Slot()
  {
  }

  class Widget {
    /** The parent widget; null for a top-level widget. */
    var parent: Widget?
    /**
     * The children, in paint order: the first child is painted first and
     * lies at the bottom; the last one is the front, painted last and
     * offered pointer events first.
     */
    var children: seq<Widget>
    var state: set<StateFlag>
    var inputMethod: set<Capability>
    /** Position relative to the parent. */
    var position: Point
    /** Absolute position in window coordinates, and the widget's size. */
    var frame: Rectangle
    /** Set by every geometry change; cleared once the frame is recomputed. */
    var geometryModified: bool
    /** Smallest allowed size; 0 in a dimension means no minimum. */
    var minSize: Size
    /** Largest allowed size; 0 in a dimension means no maximum. */
    var maxSize: Size
    var xConstraint: ResizeConstraint
    var yConstraint: ResizeConstraint
    var opacity: Byte
    /** The neighbours for directional focus navigation, one slot per direction. */
    const neighbours: array<Widget?>
    /** How many times focusOutEvent has been called on this widget. */
    var focusOutCalls: nat

    ghost predicate Valid()
      reads this
    {
      neighbours.Length == 4 && Distinct(children)
    }

    constructor (parent: Widget? := null)
      ensures Valid() && fresh(neighbours)
      ensures this.parent == parent && children == []
      ensures state == {} && inputMethod == NoInput
      ensures xConstraint == NoConstraint && yConstraint == NoConstraint
      ensures forall d :: GetNeighbour(d) == null
      ensures focusOutCalls == 0
    {
      this.parent := parent;
      children := [];
      state := {};
      inputMethod := NoInput;
      position := Point(0, 0);
      frame := Rectangle(0, 0, 0, 0);
      geometryModified := true;
      minSize := Size(0, 0);
      maxSize := Size(0, 0);
      xConstraint := NoConstraint;
      yConstraint := NoConstraint;
      opacity := 255;
      neighbours := new Widget?[4](_ => null);
      focusOutCalls := 0;
    }

    // ---- children -------------------------------------------------------

    /** A child is found by a search of the children list. */
    predicate IsChild(child: Widget?)
      reads this
      ensures IsChild(child) <==> child != null && IndexOf(children, child) != -1
    {
      child != null && child in children
    }

    /** The front child: painted last, offered pointer events first. */
    function FrontChild(): Widget
      reads this
      requires children != []
    {
      children[|children| - 1]
    }

    /** The bottom child: painted first. */
    function BottomChild(): Widget
      reads this
      requires children != []
    {
      children[0]
    }

    /** Adds child at the front and makes this widget its parent; fails on null or an existing child. */
    method AddChild(child: Widget?) returns (ok: bool)
      requires Valid()
      modifies this`children, (if child == null then {} else {child})`parent
      ensures Valid()
      ensures ok == (child != null && old(!IsChild(child)))
      ensures ok ==> children == old(children) + [child] && child.parent == this && IsChild(child)
      ensures !ok ==> children == old(children)
      ensures child != null && !ok ==> unchanged(child)
      ensures child != this ==> unchanged(this`parent)
      ensures unchanged(this`state, this`frame, this`position)
    {
      if child == null || child in children {
        return false;
      }
      child.parent := this;
      children := children + [child];
      return true;
    }

    /** Erases child from the children; fails when it is not a child. */
    method RemoveChild(child: Widget?) returns (ok: bool)
      requires Valid()
      modifies this`children
      ensures Valid()
      ensures ok == old(IsChild(child))
      ensures children == if ok then Remove(old(children), child) else old(children)
      ensures !IsChild(child)
    {
      RemoveDistinct(children, child);
      if child == null || child !in children {
        return false;
      }
      children := RemoveAt(children, IndexOf(children, child));
      return true;
    }

    /** Moves child to the front; fails when it is not a child. */
    method RaiseChildToFront(child: Widget?) returns (ok: bool)
      requires Valid()
      modifies this`children
      ensures Valid()
      ensures ok == old(IsChild(child))
      ensures children == if ok then MoveToEnd(old(children), child) else old(children)
      ensures ok ==> FrontChild() == child
      ensures ok ==> Remove(children, child) == Remove(old(children), child)
    {
      if child == null || child !in children {
        return false;
      }
      children := MoveToEnd(children, child);
      MoveToEndKeepsOthers(old(children), child);
      return true;
    }

    /** Moves child to the bottom; fails when it is not a child. */
    method LowerChildToBottom(child: Widget?) returns (ok: bool)
      requires Valid()
      modifies this`children
      ensures Valid()
      ensures ok == old(IsChild(child))
      ensures children == if ok then MoveToStart(old(children), child) else old(children)
      ensures ok ==> BottomChild() == child
      ensures ok ==> Remove(children, child) == Remove(old(children), child)
    {
      if child == null || child !in children {
        return false;
      }
      children := MoveToStart(children, child);
      MoveToStartKeepsOthers(old(children), child);
      return true;
    }

    /** Exchanges child with the child just in front of it; fails when it is not a child or already at the front. */
    method RaiseChild(child: Widget?) returns (ok: bool)
      requires Valid()
      modifies this`children
      ensures Valid()
      ensures var i := IndexOf(old(children), child);
        && ok == (old(IsChild(child)) && i + 1 < |old(children)|)
        && children == (if ok then SwapAdjacent(old(children), i) else old(children))
        && (ok ==> IndexOf(children, child) == i + 1)
      ensures multiset(children) == multiset(old(children))
    {
      var i := IndexOf(children, child);
      if child == null || i == -1 || i + 1 >= |children| {
        return false;
      }
      children := SwapAdjacent(children, i);
      SwapMovesByOne(old(children), i);
      return true;
    }

    /** Exchanges child with the child just behind it; fails when it is not a child or already at the bottom. */
    method LowerChild(child: Widget?) returns (ok: bool)
      requires Valid()
      modifies this`children
      ensures Valid()
      ensures var i := IndexOf(old(children), child);
        && ok == (old(IsChild(child)) && i > 0)
        && children == (if ok then SwapAdjacent(old(children), i - 1) else old(children))
        && (ok ==> IndexOf(children, child) == i - 1)
      ensures multiset(children) == multiset(old(children))
    {
      var i := IndexOf(children, child);
      if child == null || i <= 0 {
        return false;
      }
      children := SwapAdjacent(children, i - 1);
      SwapMovesByOne(old(children), i - 1);
      return true;
    }

    // ---- state inherited along the parent chain --------------------------

    /**
     * chain lists this widget's ancestors, nearest first: its parent, the
     * parent's parent, and so on up to a widget without a parent.
     */
    ghost predicate IsLineage(chain: seq<Widget>)
      reads this, chain
    {
      && (parent == null <==> chain == [])
      && (chain != [] ==> chain[0] == parent && chain[|chain| - 1].parent == null)
      && forall i :: 0 <= i < |chain| - 1 ==> chain[i].parent == chain[i + 1]
    }

    /** The lineage of the parent is the lineage of this widget without its first entry. */
    lemma ParentLineage(chain: seq<Widget>)
      requires IsLineage(chain) && parent != null
      ensures parent.IsLineage(chain[1..])
    {
      assert chain[0] == parent;
      if |chain| > 1 {
        assert parent.parent == chain[1];
      }
    }

    /**
     * A widget on a cycle of parent links has no lineage: the walk up its
     * parents goes round the cycle and never reaches a root. The cycle lists
     * this widget first, then each entry's parent, and the last entry's parent
     * is this widget again; a widget made its own parent is the cycle [this].
     */
    lemma CycleHasNoLineage(cycle: seq<Widget>, chain: seq<Widget>)
      requires cycle != [] && cycle[0] == this && cycle[|cycle| - 1].parent == this
      requires forall i :: 0 <= i < |cycle| - 1 ==> cycle[i].parent == cycle[i + 1]
      ensures !IsLineage(chain)
    {
      if |cycle| > 1 {
        assert parent == cycle[1];
      }
      if chain != [] && chain[0] == parent && forall i :: 0 <= i < |chain| - 1 ==> chain[i].parent == chain[i + 1] {
        var k, j := 0, if |cycle| > 1 then 1 else 0;
        while k < |chain| - 1
          invariant 0 <= k < |chain| && 0 <= j < |cycle| && chain[k] == cycle[j]
        {
          k, j := k + 1, if j + 1 < |cycle| then j + 1 else 0;
        }
        if j < |cycle| - 1 {
          assert cycle[j].parent == cycle[j + 1];
        }
      }
    }

    /** A widget has one lineage: the one its parent links determine. */
    lemma {:induction false} LineageUnique(c1: seq<Widget>, c2: seq<Widget>)
      requires IsLineage(c1) && IsLineage(c2)
      ensures c1 == c2
      decreases |c1|
    {
      if parent != null {
        ParentLineage(c1);
        ParentLineage(c2);
        parent.LineageUnique(c1[1..], c2[1..]);
        assert c1 == [c1[0]] + c1[1..];
        assert c2 == [c2[0]] + c2[1..];
      }
    }

    /**
     * True unless flag is set on this widget or on one of its ancestors:
     * the widget asks its own state, then its parent.
     */
    function FlagClear(flag: StateFlag, chain: seq<Widget>): (r: bool)
      reads this, chain
      requires IsLineage(chain)
      ensures r <==> flag !in state && forall a :: a in chain ==> flag !in a.state
      decreases |chain|
    {
      flag !in state &&
      (parent == null || (ParentLineage(chain); parent.FlagClear(flag, chain[1..])))
    }

    /** A flag set on the parent is inherited: its absence on the child requires its absence on the parent. */
    lemma InheritedFromParent(flag: StateFlag, chain: seq<Widget>)
      requires IsLineage(chain) && parent != null
      ensures parent.IsLineage(chain[1..])
      ensures FlagClear(flag, chain) ==> parent.FlagClear(flag, chain[1..])
    {
      ParentLineage(chain);
    }

    /** A widget is enabled when neither it nor any ancestor is disabled. */
    function Enabled(chain: seq<Widget>): (r: bool)
      reads this, chain
      requires IsLineage(chain)
      ensures r <==> Disabled !in state && forall a :: a in chain ==> Disabled !in a.state
    {
      FlagClear(Disabled, chain)
    }

    /** A widget is visible when neither it nor any ancestor is hidden. */
    function Visible(chain: seq<Widget>): (r: bool)
      reads this, chain
      requires IsLineage(chain)
      ensures r <==> Invisible !in state && forall a :: a in chain ==> Invisible !in a.state
    {
      FlagClear(Invisible, chain)
    }

    /** Focus is the focused state flag. */
    function HasFocus(): (r: bool)
      reads this
      ensures r <==> Focused in state
    {
      Focused in state
    }

    /** Enabled, visible and capable of key input. */
    function AcceptsKeyInput(chain: seq<Widget>): (r: bool)
      reads this, chain
      requires IsLineage(chain)
      ensures r <==> KeyCapability in inputMethod && Disabled !in state && Invisible !in state &&
                     forall a :: a in chain ==> Disabled !in a.state && Invisible !in a.state
    {
      Enabled(chain) && Visible(chain) && KeyCapability in inputMethod
    }

    /** Enabled, visible and capable of pointer input. */
    function AcceptsPointerInput(chain: seq<Widget>): (r: bool)
      reads this, chain
      requires IsLineage(chain)
      ensures r <==> PointerCapability in inputMethod && Disabled !in state && Invisible !in state &&
                     forall a :: a in chain ==> Disabled !in a.state && Invisible !in a.state
    {
      Enabled(chain) && Visible(chain) && PointerCapability in inputMethod
    }

    /** Gives key input focus to the widget when it accepts key input; otherwise nothing changes. */
    method SetFocus(chain: seq<Widget>)
      requires IsLineage(chain)
      modifies this`state
      ensures HasFocus() <==> old(HasFocus()) || old(AcceptsKeyInput(chain))
      ensures state - {Focused} == old(state) - {Focused}
    {
      if AcceptsKeyInput(chain) {
        state := state + {Focused};
      }
    }

    /** Drops the focus flag; a widget that had focus gets its focusOutEvent called. */
    method ClearFocus()
      modifies this`state, this`focusOutCalls
      ensures !HasFocus() && state == old(state) - {Focused}
      ensures focusOutCalls == old(focusOutCalls) + (if old(HasFocus()) then 1 else 0)
    {
      if Focused in state {
        focusOutCalls := focusOutCalls + 1;
      }
      state := state - {Focused};
    }

    method SetEnabled()
      modifies this`state
      ensures state == old(state) - {Disabled}
    {
      state := state - {Disabled};
    }

    method SetDisabled()
      modifies this`state
      ensures state == old(state) + {Disabled}
    {
      state := state + {Disabled};
    }

    method SetVisible(visible: bool := true)
      modifies this`state
      ensures state == if visible then old(state) - {Invisible} else old(state) + {Invisible}
    {
      if visible {
        state := state - {Invisible};
      } else {
        state := state + {Invisible};
      }
    }

    method SetOpacity(value: Byte)
      modifies this`opacity
      ensures opacity == value
    {
      opacity := value;
    }

    method SetInputMethod(im: set<Capability>)
      modifies this`inputMethod
      ensures inputMethod == im
    {
      inputMethod := im;
    }

    /** Adds or drops the pointer tracking capability, leaving the others as they are. */
    method SetPointerTracking(tracking: bool)
      modifies this`inputMethod
      ensures (TrackingCapability in inputMethod) == tracking
      ensures inputMethod - {TrackingCapability} == old(inputMethod) - {TrackingCapability}
    {
      if tracking {
        inputMethod := inputMethod + {TrackingCapability};
      } else {
        inputMethod := inputMethod - {TrackingCapability};
      }
    }

    // ---- neighbours ------------------------------------------------------

    function GetNeighbour(d: Direction): Widget?
      reads this, neighbours
      requires Valid()
    {
      neighbours[d.Slot()]
    }

    method SetNeighbour(d: Direction, n: Widget?)
      requires Valid()
      modifies neighbours
      ensures GetNeighbour(d) == n
      ensures forall e :: e != d ==> GetNeighbour(e) == old(GetNeighbour(e))
    {
      neighbours[d.Slot()] := n;
      forall e | e != d ensures e.Slot() != d.Slot() {
        SlotsDiffer(d, e);
      }
    }

    method SetNeighbours(top: Widget?, bottom: Widget?, left: Widget?, right: Widget?)
      requires Valid()
      modifies neighbours
      ensures GetNeighbour(Up) == top && GetNeighbour(Down) == bottom
      ensures GetNeighbour(Left) == left && GetNeighbour(Right) == right
    {
      SetNeighbour(Up, top);
      SetNeighbour(Down, bottom);
      SetNeighbour(Left, left);
      SetNeighbour(Right, right);
    }

    // ---- size limits and constraints -------------------------------------

    method SetMinimumSize(size: Size)
      modifies this`minSize
      ensures minSize == size
    {
      minSize := size;
    }

    method SetMaximumSize(size: Size)
      modifies this`maxSize
      ensures maxSize == size
    {
      maxSize := size;
    }

    method SetXConstraint(c: ResizeConstraint := NoConstraint)
      modifies this`xConstraint
      ensures xConstraint == c
    {
      xConstraint := c;
    }

    method SetYConstraint(c: ResizeConstraint := NoConstraint)
      modifies this`yConstraint
      ensures yConstraint == c
    {
      yConstraint := c;
    }

    method SetConstraints(x: ResizeConstraint := NoConstraint, y: ResizeConstraint := NoConstraint)
      modifies this`xConstraint, this`yConstraint
      ensures xConstraint == x && yConstraint == y
    {
      xConstraint := x;
      yConstraint := y;
    }

    // ---- geometry --------------------------------------------------------

    /** The absolute x coordinate: where the widget's local origin lies in window coordinates. */
    function AbsX(): (x: int)
      reads this
      ensures MapPointFromSurface(Point(0, 0)).x == x
    {
      frame.x
    }

    /** The absolute y coordinate: where the widget's local origin lies in window coordinates. */
    function AbsY(): (y: int)
      reads this
      ensures MapPointFromSurface(Point(0, 0)).y == y
    {
      frame.y
    }

    method MoveTo(p: Point)
      modifies this`position, this`geometryModified
      ensures position == p && geometryModified
    {
      position := p;
      geometryModified := true;
    }

    method SetX(x: int)
      modifies this`position, this`geometryModified
      ensures position == old(position).(x := x) && geometryModified
    {
      position := position.(x := x);
      geometryModified := true;
    }

    method SetY(y: int)
      modifies this`position, this`geometryModified
      ensures position == old(position).(y := y) && geometryModified
    {
      position := position.(y := y);
      geometryModified := true;
    }

    method SetWidth(width: int)
      modifies this`frame, this`geometryModified
      ensures frame == old(frame).(width := width) && geometryModified
    {
      frame := frame.(width := width);
      geometryModified := true;
    }

    method SetHeight(height: int)
      modifies this`frame, this`geometryModified
      ensures frame == old(frame).(height := height) && geometryModified
    {
      frame := frame.(height := height);
      geometryModified := true;
    }

    method SetSize(size: Size)
      modifies this`frame, this`geometryModified
      ensures frame.TopLeft() == old(frame.TopLeft()) && frame.Dimensions() == size && geometryModified
    {
      frame := frame.(width := size.width, height := size.height);
      geometryModified := true;
    }

    method SetGeometry(x: int, y: int, width: int, height: int)
      modifies this`position, this`frame, this`geometryModified
      ensures position == Point(x, y) && frame.Dimensions() == Size(width, height)
      ensures frame.TopLeft() == old(frame.TopLeft()) && geometryModified
    {
      position := Point(x, y);
      frame := frame.(width := width, height := height);
      geometryModified := true;
    }

    /** Recomputes the absolute position: the parent's absolute position plus the relative one. */
    method UpdateFrameGeometry()
      modifies this`frame, this`geometryModified
      ensures parent == null ==> frame.TopLeft() == position
      ensures parent != null ==> frame.TopLeft() == position.Translated(old(parent.frame.x), old(parent.frame.y))
      ensures frame.Dimensions() == old(frame.Dimensions()) && !geometryModified
    {
      var origin := if parent == null then Point(0, 0) else parent.frame.TopLeft();
      frame := frame.(x := origin.x + position.x, y := origin.y + position.y);
      geometryModified := false;
    }

    /** A rectangle in window coordinates, in this widget's local coordinates. */
    function MapToSurface(r: Rectangle): (local: Rectangle)
      reads this
      ensures local.Translated(frame.x, frame.y) == r
    {
      Rectangle(r.x - frame.x, r.y - frame.y, r.width, r.height)
    }

    /** A point in window coordinates, in this widget's local coordinates. */
    function MapPointToSurface(p: Point): (local: Point)
      reads this
      ensures local.Translated(frame.x, frame.y) == p
    {
      Point(p.x - frame.x, p.y - frame.y)
    }

    /** A rectangle in local coordinates, in window coordinates. */
    function MapFromSurface(r: Rectangle): (abs: Rectangle)
      reads this
      ensures abs.Translated(-frame.x, -frame.y) == r
    {
      Rectangle(r.x + frame.x, r.y + frame.y, r.width, r.height)
    }

    /** A point in local coordinates, in window coordinates. */
    function MapPointFromSurface(p: Point): (abs: Point)
      reads this
      ensures abs.Translated(-frame.x, -frame.y) == p
    {
      Point(p.x + frame.x, p.y + frame.y)
    }

    /** Window and local coordinates convert back and forth without loss. */
    lemma MappingRoundTrip(r: Rectangle, p: Point)
      ensures MapFromSurface(MapToSurface(r)) == r && MapToSurface(MapFromSurface(r)) == r
      ensures MapPointFromSurface(MapPointToSurface(p)) == p && MapPointToSurface(MapPointFromSurface(p)) == p
    {
    }
  }
}
