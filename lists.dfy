/**
 * List operations as functions on sequences: find, erase, push_back,
 * push_front, insert and an exchange of neighbours. The children of a
 * widget, the items of a list box and the window, callback and listener
 * lists of the application are std::list members, and the model reads
 * each operation on them as one of these.
 */
module Lists {

  /** No element occurs twice. */
  ghost predicate Distinct<T>(s: seq<T>)
  {
    forall i, j :: 0 <= i < j < |s| ==> s[i] != s[j]
  }

  /** The position of the first occurrence of x in s, or -1 (std::find, as an index). */
  function IndexOf<T(==)>(s: seq<T>, x: T): (i: int)
    ensures -1 <= i < |s|
    ensures i == -1 <==> x !in s
    ensures 0 <= i ==> s[i] == x && x !in s[..i]
  {
    if s == [] then -1
    else if s[0] == x then 0
    else
      var j := IndexOf(s[1..], x);
      if j == -1 then -1
      else
        assert s[..j + 1] == [s[0]] + s[1..][..j];
        j + 1
  }

  /** s without its element at index i (erase at an iterator). */
  function RemoveAt<T>(s: seq<T>, i: nat): (r: seq<T>)
    requires i < |s|
    ensures |r| == |s| - 1
    ensures forall k :: 0 <= k < i ==> r[k] == s[k]
    ensures forall k :: i <= k < |r| ==> r[k] == s[k + 1]
    ensures multiset(r) == multiset(s) - multiset{s[i]}
  {
    assert s == s[..i] + [s[i]] + s[i + 1..];
    s[..i] + s[i + 1..]
  }

  /** s with x inserted so that it sits at index i (insert before an iterator). */
  function InsertAt<T>(s: seq<T>, i: nat, x: T): (r: seq<T>)
    requires i <= |s|
    ensures |r| == |s| + 1 && r[i] == x
    ensures forall k :: 0 <= k < i ==> r[k] == s[k]
    ensures forall k :: i < k < |r| ==> r[k] == s[k - 1]
    ensures multiset(r) == multiset(s) + multiset{x}
  {
    assert s == s[..i] + s[i..];
    s[..i] + [x] + s[i..]
  }

  /** s with the first occurrence of x erased, and s itself when x does not occur. */
  function Remove<T(==)>(s: seq<T>, x: T): (r: seq<T>)
    ensures x !in s ==> r == s
    ensures x in s ==> |r| == |s| - 1 && multiset(r) == multiset(s) - multiset{x}
    ensures forall y :: y in r ==> y in s
    ensures forall y :: y in s && y != x ==> y in r
  {
    if x in s then RemoveAt(s, IndexOf(s, x)) else s
  }

  /** Erasing from a list without duplicates leaves none, and takes x out entirely. */
  lemma RemoveDistinct<T>(s: seq<T>, x: T)
    requires Distinct(s)
    ensures Distinct(Remove(s, x)) && x !in Remove(s, x)
  {
    if x in s {
      var i := IndexOf(s, x);
      var r := Remove(s, x);
      assert r == RemoveAt(s, i);
      forall k | 0 <= k < |r| ensures r[k] != x {
        if k < i { assert r[k] == s[k]; } else { assert r[k] == s[k + 1]; }
      }
    }
  }

  /** Appending a new element and erasing it again gives back the original list. */
  lemma RemoveAppended<T>(s: seq<T>, x: T)
    requires x !in s
    ensures Remove(s + [x], x) == s
  {
    assert (s + [x])[..|s|] == s;
  }

  /** In a list without duplicates, find returns the position of the element. */
  lemma IndexOfDistinct<T>(s: seq<T>, k: nat)
    requires Distinct(s) && k < |s|
    ensures IndexOf(s, s[k]) == k
  {
  }

  /** x moved to the end of s: erase, then push_back. */
  function MoveToEnd<T(==)>(s: seq<T>, x: T): (r: seq<T>)
    requires x in s
    ensures |r| == |s| && r[|r| - 1] == x
    ensures multiset(r) == multiset(s)
  {
    Remove(s, x) + [x]
  }

  /** x moved to the start of s: erase, then push_front. */
  function MoveToStart<T(==)>(s: seq<T>, x: T): (r: seq<T>)
    requires x in s
    ensures |r| == |s| && r[0] == x
    ensures multiset(r) == multiset(s)
  {
    [x] + Remove(s, x)
  }

  /** Raising x to the end keeps every other element in its relative order, and keeps the list free of duplicates. */
  lemma MoveToEndKeepsOthers<T>(s: seq<T>, x: T)
    requires x in s && Distinct(s)
    ensures Remove(MoveToEnd(s, x), x) == Remove(s, x)
    ensures Distinct(MoveToEnd(s, x))
  {
    RemoveDistinct(s, x);
    RemoveAppended(Remove(s, x), x);
    DistinctPushedBack(Remove(s, x), x);
  }

  /** Pushing a new element to the back of a list without duplicates keeps it without duplicates. */
  lemma DistinctPushedBack<T>(s: seq<T>, x: T)
    requires x !in s && Distinct(s)
    ensures Distinct(s + [x])
  {
    var e := s + [x];
    forall i, j | 0 <= i < j < |e| ensures e[i] != e[j] {
      assert e[i] == s[i];
      if j < |s| {
        assert e[j] == s[j];
      }
    }
  }

  /** Lowering x to the start keeps every other element in its relative order, and keeps the list free of duplicates. */
  lemma MoveToStartKeepsOthers<T>(s: seq<T>, x: T)
    requires x in s && Distinct(s)
    ensures Remove(MoveToStart(s, x), x) == Remove(s, x)
    ensures Distinct(MoveToStart(s, x))
  {
    RemoveDistinct(s, x);
    RemovePushedFront(Remove(s, x), x);
    DistinctPushedFront(Remove(s, x), x);
  }

  /** Erasing an element just pushed to the front of a list that lacked it gives back the list. */
  lemma RemovePushedFront<T>(s: seq<T>, x: T)
    requires x !in s
    ensures Remove([x] + s, x) == s
  {
    assert ([x] + s)[1..] == s;
  }

  /** Pushing a new element to the front of a list without duplicates keeps it without duplicates. */
  lemma DistinctPushedFront<T>(s: seq<T>, x: T)
    requires x !in s && Distinct(s)
    ensures Distinct([x] + s)
  {
    var b := [x] + s;
    forall i, j | 0 <= i < j < |b| ensures b[i] != b[j] {
      assert b[j] == s[j - 1];
      if i > 0 {
        assert b[i] == s[i - 1];
      }
    }
  }

  /** The elements at i and i + 1 of s exchanged. */
  function SwapAdjacent<T>(s: seq<T>, i: nat): (r: seq<T>)
    requires i + 1 < |s|
    ensures |r| == |s| && r[i] == s[i + 1] && r[i + 1] == s[i]
    ensures forall k :: 0 <= k < |s| && k != i && k != i + 1 ==> r[k] == s[k]
    ensures multiset(r) == multiset(s)
  {
    s[i := s[i + 1]][i + 1 := s[i]]
  }

  /** Exchanging neighbours keeps a list free of duplicates and moves each of the two by exactly one place. */
  lemma SwapMovesByOne<T>(s: seq<T>, i: nat)
    requires Distinct(s) && i + 1 < |s|
    ensures Distinct(SwapAdjacent(s, i))
    ensures IndexOf(SwapAdjacent(s, i), s[i]) == i + 1
    ensures IndexOf(SwapAdjacent(s, i), s[i + 1]) == i
  {
    var r := SwapAdjacent(s, i);
    forall a, b | 0 <= a < b < |r| ensures r[a] != r[b] {
      var a' := if a == i then i + 1 else if a == i + 1 then i else a;
      var b' := if b == i then i + 1 else if b == i + 1 then i else b;
      assert r[a] == s[a'] && r[b] == s[b'];
    }
    IndexOfDistinct(r, i + 1);
    IndexOfDistinct(r, i);
  }
}
