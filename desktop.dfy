/**
 * The collaborators that the window and the slider talk to: the desktop
 * (top-level widget list, keyboard focus, pointer position and the two
 * pointer broadcasts) and a plain child widget of a grid.
 */
module Desktops {
  import opened Geometry

  /** A child of a `Grid`; only the row it is laid out in matters here. */
  class Widget {
    var gridRow: int

    constructor ()
      ensures gridRow == 0
    {
      gridRow := 0;
    }
  }

  /**
   * The desktop as the widgets see it. A subscription to `MouseMoved` or
   * `TouchUp` is modelled as membership of the subscriber in the matching
   * listener set; `mousePosition` and `bounds` are inputs maintained by the
   * host.
   */
  class Desktop {
    var widgets: seq<object>
    var focusedWidget: object?
    var mouseMovedListeners: set<object>
    var touchUpListeners: set<object>
    var mousePosition: Point
    var bounds: Rect

    /** Between two states only the listener sets of this desktop changed. */
    twostate predicate OnlyListenersChanged()
      reads this
    {
      && widgets == old(widgets)
      && focusedWidget == old(focusedWidget)
      && mousePosition == old(mousePosition)
      && bounds == old(bounds)
    }
  }

  /**
   * `Collection<T>.Remove`: drops the first occurrence of `x`, keeping the
   * order of everything else; a missing `x` leaves the list as it is.
   */
  function RemoveFirst<T(==)>(s: seq<T>, x: T): (r: seq<T>)
    ensures x !in s ==> r == s
    ensures x in s ==> |r| == |s| - 1
  {
    if s == [] then []
    else
      assert s == [s[0]] + s[1..];
      if s[0] == x then s[1..] else [s[0]] + RemoveFirst(s[1..], x)
  }

  /** `RemoveFirst` takes away exactly one occurrence of `x`, when there is one. */
  lemma {:induction false} RemoveFirstMultiset<T>(s: seq<T>, x: T)
    ensures multiset(RemoveFirst(s, x)) == multiset(s) - multiset{x}
  {
    if s != [] {
      assert s == [s[0]] + s[1..];
      if s[0] != x {
        RemoveFirstMultiset(s[1..], x);
        assert multiset([s[0]] + RemoveFirst(s[1..], x))
            == multiset{s[0]} + multiset(RemoveFirst(s[1..], x));
      }
    }
  }

  /**
   * `RemoveFirst` cuts out the first occurrence of `x` and keeps the order of
   * everything before and after it.
   */
  lemma {:induction false} RemoveFirstAt<T>(s: seq<T>, x: T, i: int)
    requires 0 <= i < |s| && s[i] == x && x !in s[..i]
    ensures RemoveFirst(s, x) == s[..i] + s[i + 1..]
  {
    if i > 0 {
      assert s[0] in s[..i];
      assert s[1..][..i - 1] == s[1..i];
      assert x !in s[1..][..i - 1];
      RemoveFirstAt(s[1..], x, i - 1);
      assert s[..i] == [s[0]] + s[1..i];
      assert s[i + 1..] == s[1..][i..];
    }
  }

  /** Removing the second of two distinct entries leaves the first. */
  lemma RemoveFirstOfPair<T>(a: T, b: T)
    requires a != b
    ensures RemoveFirst([a] + [b], b) == [a]
  {
  }
}
