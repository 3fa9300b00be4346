/**
 * The item model of the list box: an ordered list of item widgets with
 * index-based insertion, removal and lookup, and a current index with the
 * item found at that index.
 */
module ListBoxes {
  import opened Lists
  import opened Widgets

  class ListBox {
    var items: seq<Widget>
    var currentIndex: nat
    var currentItem: Widget?

    /** The current item is always the item at the current index. */
    ghost predicate Valid()
      reads this
    {
      currentItem == ItemAtIndex(currentIndex)
    }

    constructor ()
      ensures Valid() && items == [] && currentIndex == 0 && currentItem == null
    {
      items := [];
      currentIndex := 0;
      currentItem := null;
    }

    /** The number of items: exactly the indices below it hold an item. */
    function Count(): (n: nat)
      reads this
      ensures forall i: nat :: i < n <==> ItemAtIndex(i) != null
    {
      |items|
    }

    /** The current index: the current item is the item found there. */
    function CurrentIndex(): (i: nat)
      reads this
      ensures Valid() ==> ItemAtIndex(i) == currentItem
    {
      currentIndex
    }

    /** The current item: none, or one of the items, the one at the current index. */
    function CurrentItem(): (w: Widget?)
      reads this
      ensures Valid() ==> w == ItemAtIndex(currentIndex)
      ensures Valid() && w != null ==> w in items && ItemIndex(w) <= currentIndex
    {
      currentItem
    }

    /** The index of the first occurrence of item, or -1. */
    function ItemIndex(item: Widget?): (i: int)
      reads this
      ensures -1 <= i < Count()
      ensures i == -1 <==> item !in items
      ensures 0 <= i ==> items[i] == item && item !in items[..i]
    {
      IndexOf(items, item)
    }

    /** The item at index, or null when index is past the end. */
    function ItemAtIndex(index: nat): (w: Widget?)
      reads this
      ensures index < |items| ==> w == items[index]
      ensures index >= |items| ==> w == null
      ensures w != null ==> w in items && IndexOf(items, w) <= index
    {
      if index < |items| then items[index] else null
    }

    /** For an item in the list, looking it up by its index gives it back. */
    lemma ItemRoundTrip(item: Widget?)
      requires item in items
      ensures 0 <= ItemIndex(item) && ItemAtIndex(ItemIndex(item)) == item
    {
    }

    /** Appends item; the current index is kept and the current item read again. */
    method AddItem(item: Widget)
      requires Valid()
      modifies this
      ensures Valid()
      ensures items == old(items) + [item] && Count() == old(Count()) + 1
      ensures currentIndex == old(currentIndex)
    {
      items := items + [item];
      currentItem := ItemAtIndex(currentIndex);
    }

    /** Inserts item so that it sits at index; an index past the end appends. */
    method InsertItem(index: nat, item: Widget)
      requires Valid()
      modifies this
      ensures Valid()
      ensures index <= old(Count()) ==> items == InsertAt(old(items), index, item) && ItemAtIndex(index) == item
      ensures index > old(Count()) ==> items == old(items) + [item]
      ensures Count() == old(Count()) + 1
      ensures currentIndex == old(currentIndex)
    {
      if index <= |items| {
        items := InsertAt(items, index, item);
      } else {
        items := items + [item];
      }
      currentItem := ItemAtIndex(currentIndex);
    }

    /** Erases the first occurrence of item; false when it is not in the list. */
    method RemoveItem(item: Widget?) returns (ok: bool)
      requires Valid()
      modifies this
      ensures Valid()
      ensures ok == (item in old(items))
      ensures items == Remove(old(items), item)
      ensures Count() == if ok then old(Count()) - 1 else old(Count())
      ensures currentIndex == old(currentIndex)
    {
      var i := IndexOf(items, item);
      if i == -1 {
        return false;
      }
      items := RemoveAt(items, i);
      currentItem := ItemAtIndex(currentIndex);
      return true;
    }

    /** Erases the item at index; false when index is past the end. */
    method RemoveItemAt(index: nat) returns (ok: bool)
      requires Valid()
      modifies this
      ensures Valid()
      ensures ok == (index < old(Count()))
      ensures items == if ok then RemoveAt(old(items), index) else old(items)
      ensures Count() == if ok then old(Count()) - 1 else old(Count())
      ensures currentIndex == old(currentIndex)
    {
      if index >= |items| {
        return false;
      }
      items := RemoveAt(items, index);
      currentItem := ItemAtIndex(currentIndex);
      return true;
    }

    method Clear()
      modifies this
      ensures Valid() && items == [] && Count() == 0
      ensures currentIndex == 0 && currentItem == null
    {
      items := [];
      currentIndex := 0;
      currentItem := null;
    }

    /** Makes the item at index current; an index past the end changes nothing. */
    method SetCurrentItemAt(index: nat)
      requires Valid()
      modifies this`currentIndex, this`currentItem
      ensures Valid()
      ensures index < Count() ==> currentIndex == index && currentItem == items[index]
      ensures index >= Count() ==> currentIndex == old(currentIndex) && currentItem == old(currentItem)
    {
      if index < |items| {
        currentIndex := index;
        currentItem := items[index];
      }
    }

    /** Makes item current when it is in the list; otherwise changes nothing. */
    method SetCurrentItem(item: Widget?)
      requires Valid()
      modifies this`currentIndex, this`currentItem
      ensures Valid()
      ensures item in items ==> currentItem == item && currentIndex == ItemIndex(item)
      ensures item !in items ==> currentIndex == old(currentIndex) && currentItem == old(currentItem)
    {
      var i := IndexOf(items, item);
      if i >= 0 {
        SetCurrentItemAt(i);
      }
    }
  }
}
