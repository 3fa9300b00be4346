/**
 * The compositor's application thumbnail: a hidden, fixed-size widget that
 * accepts key and pointer input and answers input by emitting its
 * "focused" and "selected" signals, recorded here as a trace.
 */
module Thumbnails {
  import opened Geometry
  import opened Widgets

  /** DirectFB's key symbol for the space bar (DIKS_SPACE), the character code of ' '. */
  const DiksSpace: int := 0x20

  /** The side of the square a thumbnail asks its layout for, in pixels. */
  const ThumbnailSide: int := 196

  datatype PointerEvent = PointerEvent(x: int, y: int)

  datatype KeyEvent = KeyEvent(keySymbol: int)

  /** The input the thumbnail handles itself. */
  datatype ThumbnailEvent =
    | ButtonUp(pointer: PointerEvent)
    | KeyUp(key: KeyEvent)
    | FocusIn
    | FocusOut

  /** One emission: sigFocused carries the thumbnail, sigSelected carries nothing. */
  datatype Signal = SigFocused(thumb: AppThumbnail) | SigSelected

  /** Events that confirm a selection: a button release, or the release of the space key. */
  predicate Confirms(e: ThumbnailEvent)
  {
    e.ButtonUp? || (e.KeyUp? && e.key.keySymbol == DiksSpace)
  }

  /** The signals thumb emits, in order, when it handles e. */
  function Emitted(thumb: AppThumbnail, e: ThumbnailEvent): (signals: seq<Signal>)
    ensures SigSelected in signals <==> Confirms(e)
    ensures SigFocused(thumb) in signals <==> e.ButtonUp? || e.FocusIn?
    ensures forall s :: s in signals ==> s == SigSelected || s == SigFocused(thumb)
    ensures multiset(signals)[SigSelected] <= 1 && multiset(signals)[SigFocused(thumb)] <= 1
    ensures SigFocused(thumb) in signals && SigSelected in signals ==> signals == [SigFocused(thumb), SigSelected]
  {
    match e
    case ButtonUp(_) => [SigFocused(thumb), SigSelected]
    case KeyUp(k) => if k.keySymbol == DiksSpace then [SigSelected] else []
    case FocusIn => [SigFocused(thumb)]
    case FocusOut => []
  }

  /** The signals thumb emits when it handles events one after the other. */
  function Replay(thumb: AppThumbnail, events: seq<ThumbnailEvent>): seq<Signal>
  {
    if events == [] then []
    else Replay(thumb, events[..|events| - 1]) + Emitted(thumb, events[|events| - 1])
  }

  /** The number of confirming events in events. */
  function Confirmations(events: seq<ThumbnailEvent>): nat
  {
    if events == [] then 0
    else Confirmations(events[..|events| - 1]) + (if Confirms(events[|events| - 1]) then 1 else 0)
  }

  /** Over any run of input, sigSelected is emitted exactly once per confirming event. */
  lemma {:induction false} SelectedOncePerConfirmation(thumb: AppThumbnail, events: seq<ThumbnailEvent>)
    ensures multiset(Replay(thumb, events))[SigSelected] == Confirmations(events)
  {
    if events != [] {
      var last := events[|events| - 1];
      SelectedOncePerConfirmation(thumb, events[..|events| - 1]);
      var es := Emitted(thumb, last);
      assert Confirms(last) ==> multiset(es)[SigSelected] == 1;
      assert !Confirms(last) ==> multiset(es)[SigSelected] == 0;
    }
  }

  class AppThumbnail {
    /** The widget part of the thumbnail. */
    const widget: Widget
    /** Every signal emitted so far, oldest first. */
    var signals: seq<Signal>

    /** A new thumbnail starts hidden, accepts key and pointer input and has a fixed size on both axes. */
    constructor (parent: Widget?)
      ensures fresh(widget) && widget.Valid() && widget.parent == parent
      ensures Invisible in widget.state
      ensures widget.inputMethod == KeyAndPointerInput
      ensures widget.xConstraint == FixedConstraint && widget.yConstraint == FixedConstraint
      ensures signals == []
    {
      var w := new Widget(parent);
      w.SetInputMethod(KeyAndPointerInput);
      w.SetConstraints(FixedConstraint, FixedConstraint);
      w.SetVisible(false);
      widget := w;
      signals := [];
    }

    /** A hidden thumbnail is not visible, whatever its ancestors are. */
    lemma HiddenIsNotVisible(chain: seq<Widget>)
      requires widget.IsLineage(chain) && Invisible in widget.state
      ensures !widget.Visible(chain) && !widget.AcceptsKeyInput(chain) && !widget.AcceptsPointerInput(chain)
    {
    }

    /** The size the thumbnail asks its layout for. */
    function PreferredSize(): (s: Size)
      ensures s.width == 196 && s.height == 196
    {
      Size(ThumbnailSide, ThumbnailSide)
    }

    /** Releasing a pointer button over the thumbnail focuses and then selects it. */
    method PointerButtonUpEvent(ev: PointerEvent)
      modifies this`signals
      ensures signals == old(signals) + Emitted(this, ButtonUp(ev))
    {
      signals := signals + [SigFocused(this)];
      signals := signals + [SigSelected];
    }

    /** Releasing the space key selects the thumbnail; other keys do nothing. */
    method KeyUpEvent(ev: KeyEvent)
      modifies this`signals
      ensures signals == old(signals) + Emitted(this, KeyUp(ev))
    {
      if ev.keySymbol == DiksSpace {
        signals := signals + [SigSelected];
      }
    }

    method FocusInEvent()
      modifies this`signals
      ensures signals == old(signals) + Emitted(this, FocusIn)
    {
      signals := signals + [SigFocused(this)];
    }

    /** Losing focus emits nothing and changes nothing. */
    method FocusOutEvent()
      ensures signals == old(signals) + Emitted(this, FocusOut)
    {
    }
  }
}
