/**
 * Myra's `Slider`: a scalar `Value` in `[Minimum, Maximum]` bound to the
 * pixel offset of its knob (the `ImageButton` inner child). C# `float` is
 * modelled as `real`; the `(int)` cast and integer `/ 2` truncate toward
 * zero. Layout is not modelled: the slider's and the knob's bounds are
 * parameters of the operations that read them.
 *
 * The two directions of the mapping are deliberately not inverse to each
 * other: the value-to-offset direction scales by `Value / Maximum` and
 * ignores `Minimum`, while the offset-to-value direction interpolates
 * between `Minimum` and `Maximum`.
 */
module Sliders {
  import opened Geometry
  import opened Desktops

  datatype Orientation = Horizontal | Vertical

  /** The notifications a slider raises, with their (old, new) payload. */
  datatype SliderEvent =
    | ValueChanged(oldValue: real, newValue: real)
    | ValueChangedByUser(oldValue: real, newValue: real)

  /** The extent of `r` along the axis the knob moves on. */
  function Along(o: Orientation, r: Rect): int {
    if o == Horizontal then r.width else r.height
  }

  /**
   * The clamp in the `Value` setter: first down to `maximum`, then up to
   * `minimum`. The lower bound is applied last, so it wins when the bounds
   * are crossed.
   */
  function ClampValue(v: real, minimum: real, maximum: real): (r: real)
    ensures minimum <= maximum ==> minimum <= r <= maximum
    ensures minimum <= v <= maximum ==> r == v
    ensures minimum <= maximum < v ==> r == maximum
    ensures v < minimum ==> r == minimum
    ensures maximum < minimum ==> r == minimum
  {
    var capped := if v > maximum then maximum else v;
    if capped < minimum then minimum else capped
  }

  /**
   * The value-to-offset mapping of `SyncHintWithValue`:
   * `(int)(MaxHint * (Value / Maximum))`. It does not depend on the minimum.
   */
  function ForwardHint(maxHint: int, value: real, maximum: real): (h: int)
    requires maximum != 0.0
    ensures 0 <= maxHint && 0.0 <= value <= maximum ==> 0 <= h <= maxHint
    ensures value == 0.0 ==> h == 0
    ensures value == maximum ==> h == maxHint
  {
    var t := maxHint as real * (value / maximum);
    ForwardBetween(maxHint, value, maximum);
    assert (maxHint as real).Floor == maxHint;
    assert (-maxHint as real).Floor == -maxHint;
    TruncateToInt(t)
  }

  /** The scaled offset stays on the track when the value is in `[0, maximum]`. */
  lemma ForwardBetween(maxHint: int, value: real, maximum: real)
    requires maximum != 0.0
    ensures 0 <= maxHint && 0.0 <= value <= maximum ==>
      0.0 <= maxHint as real * (value / maximum) <= maxHint as real
    ensures value == maximum ==> maxHint as real * (value / maximum) == maxHint as real
  {
    assert maximum / maximum == 1.0;
    if 0 <= maxHint && 0.0 <= value <= maximum {
      var f := value / maximum;
      assert 0.0 <= f <= 1.0 by {
        assert f * maximum == value;
      }
      assert maxHint as real * f <= maxHint as real * 1.0;
    }
  }

  /** The clamp in `UpdateHint`: up to 0 first, then down to `maxHint`. */
  function ClampHint(hint: int, maxHint: int): (h: int)
    ensures 0 <= maxHint ==> 0 <= h <= maxHint
    ensures 0 <= hint <= maxHint ==> h == hint
    ensures maxHint < hint ==> h == maxHint
    ensures hint < 0 <= maxHint ==> h == 0
    ensures maxHint < 0 ==> h == maxHint
  {
    var raised := if hint < 0 then 0 else hint;
    if raised > maxHint then maxHint else raised
  }

  /**
   * The offset-to-value mapping of `UpdateHint`:
   * `Minimum + hint * (Maximum - Minimum) / MaxHint`.
   */
  function InverseValue(hint: int, minimum: real, maximum: real, maxHint: int): (v: real)
    requires maxHint != 0
    ensures 0 < maxHint && 0 <= hint <= maxHint && minimum <= maximum ==> minimum <= v <= maximum
    ensures hint == 0 ==> v == minimum
    ensures hint == maxHint ==> v == maximum
  {
    var d := maximum - minimum;
    InverseBetween(hint, d, maxHint);
    minimum + hint as real * d / maxHint as real
  }

  /** A knob offset on the track interpolates within `[0, d]`. */
  lemma InverseBetween(hint: int, d: real, maxHint: int)
    requires maxHint != 0
    ensures 0 < maxHint && 0 <= hint <= maxHint && 0.0 <= d ==>
      0.0 <= hint as real * d / maxHint as real <= d
  {
  }

  /**
   * With `Minimum = 0` the two mappings agree up to one knob pixel: mapping
   * a value to an offset and back yields a value at most one pixel's worth
   * (`Maximum / MaxHint`) below it, and never above it.
   */
  lemma {:induction false} ForwardThenInverse(maxHint: int, v: real, maximum: real)
    requires 0 < maxHint && 0.0 < maximum && 0.0 <= v <= maximum
    ensures var back := InverseValue(ForwardHint(maxHint, v, maximum), 0.0, maximum, maxHint);
      back <= v < back + maximum / maxHint as real
  {
    var m := maxHint as real;
    var t := m * (v / maximum);
    var h := ForwardHint(maxHint, v, maximum);
    assert h as real <= t < h as real + 1.0 by {
      assert 0.0 <= t;
      assert h == TruncateToInt(t);
    }
    assert InverseValue(h, 0.0, maximum, maxHint) == h as real * maximum / m;
    ScaleBack(h as real, t, v, maximum, m);
  }

  /** Multiplying `h <= t < h + 1` through by `maximum / m` brings the offset back to a value. */
  lemma ScaleBack(h: real, t: real, v: real, maximum: real, m: real)
    requires 0.0 < m && 0.0 < maximum && h <= t < h + 1.0 && t == m * (v / maximum)
    ensures h * maximum / m <= v < h * maximum / m + maximum / m
  {
    var k := maximum / m;
    assert v == t * k by {
      assert (v / maximum) * maximum == v;
      assert t * k == m * (v / maximum) * (maximum / m);
    }
    ScaledBelow(v, t, h + 1.0, k);
    ScaledAbove(v, t, h, k);
    ScaleSucc(h, k);
    assert h * k == h * maximum / m;
  }

  /** Scaling by a positive `k` keeps a strict upper bound. */
  lemma ScaledBelow(v: real, t: real, b: real, k: real)
    requires v == t * k && t < b && 0.0 < k
    ensures v < b * k
  {
  }

  /** Scaling by a positive `k` keeps a lower bound. */
  lemma ScaledAbove(v: real, t: real, a: real, k: real)
    requires v == t * k && a <= t && 0.0 < k
    ensures a * k <= v
  {
  }

  /** Distributing the scale factor over `h + 1`. */
  lemma ScaleSucc(h: real, k: real)
    ensures (h + 1.0) * k == h * k + k
  {
  }

  /**
   * With a minimum of at least one pixel's worth (`Maximum / MaxHint`) the
   * mappings disagree: the value `Minimum` puts the knob at a positive
   * offset, yet offset 0 maps back to `Minimum`. For example `Minimum = 50`, `Maximum = 100`, `MaxHint = 100`
   * places the knob for 50 at offset 50, and offset 50 reads back as 75.
   */
  lemma {:induction false} ForwardIgnoresMinimum(maxHint: int, minimum: real, maximum: real)
    requires 0.0 < minimum <= maximum && maximum <= maxHint as real * minimum
    ensures 0 < ForwardHint(maxHint, minimum, maximum)
    ensures InverseValue(0, minimum, maximum, maxHint) == minimum
  {
    var t := maxHint as real * (minimum / maximum);
    assert 1.0 <= t by {
      assert maxHint as real * minimum / maximum == t;
      assert maximum / maximum == 1.0;
    }
  }

  /** The scenario `Maximum = 100`, `MaxHint = 200`: value 50 puts the knob at 100. */
  lemma ForwardExample()
    ensures ForwardHint(200, 50.0, 100.0) == 100
    ensures ForwardHint(100, 50.0, 100.0) == 50 && InverseValue(50, 50.0, 100.0, 100) == 75.0
  {
  }

  /** The knob: an `ImageButton` whose `Left`/`Top` are its offset on the track. */
  class Knob {
    var left: int
    var top: int
    var isPressed: bool

    constructor ()
      ensures left == 0 && top == 0 && !isPressed
    {
      left, top, isPressed := 0, 0, false;
    }
  }

  class Slider {
    /** Fixed by the concrete `HorizontalSlider` or `VerticalSlider`. */
    const orientation: Orientation
    /** `InternalChild`. */
    const knob: Knob
    var minimum: real
    var maximum: real
    /** `_value`. */
    var value: real
    var desktop: Desktop?
    /** The `ValueChanged` and `ValueChangedByUser` notifications raised so far, in order. */
    var events: seq<SliderEvent>

    constructor (orientation: Orientation)
      ensures this.orientation == orientation && fresh(knob)
      ensures minimum == 0.0 && maximum == 100.0 && value == 0.0
      ensures desktop == null && events == []
      ensures knob.left == 0 && knob.top == 0 && !knob.isPressed
    {
      this.orientation := orientation;
      knob := new Knob();
      minimum, maximum, value := 0.0, 100.0, 0.0;
      desktop := null;
      events := [];
    }

    /** The `Hint` getter: the knob's offset along the slider's axis. */
    function Hint(): int
      reads knob
    {
      if orientation == Horizontal then knob.left else knob.top
    }

    /**
     * `MaxHint`: the largest knob offset that keeps the knob inside the
     * slider, so a knob at that offset ends exactly at the slider's far edge.
     */
    function MaxHint(bounds: Rect, knobBounds: Rect): int {
      if orientation == Horizontal
      then bounds.width - knobBounds.width
      else bounds.height - knobBounds.height
    }

    /**
     * `GetHint`: the knob offset that centres the knob under the pointer,
     * halving the knob's extent with C#'s truncating `/ 2`.
     */
    function GetHint(actualBounds: Rect, knobActualBounds: Rect): (h: int)
      requires desktop != null
      reads this`desktop, desktop
      ensures var from := if orientation == Horizontal
                          then desktop.mousePosition.x - actualBounds.x
                          else desktop.mousePosition.y - actualBounds.y;
        var extent := Along(orientation, knobActualBounds);
        0 <= extent ==> -1 <= 2 * (from - h) - extent <= 0
    {
      if orientation == Horizontal
      then desktop.mousePosition.x - actualBounds.x - HalfTowardZero(knobActualBounds.width)
      else desktop.mousePosition.y - actualBounds.y - HalfTowardZero(knobActualBounds.height)
    }

    /** The `Hint` setter: writes only the coordinate of the slider's axis. */
    method SetHint(h: int)
      modifies knob`left, knob`top
      ensures Hint() == h
      ensures orientation == Horizontal ==> knob.top == old(knob.top)
      ensures orientation == Vertical ==> knob.left == old(knob.left)
      ensures old(Hint()) == h ==> knob.left == old(knob.left) && knob.top == old(knob.top)
    {
      if Hint() == h {
        return;
      }
      if orientation == Horizontal {
        knob.left := h;
      } else {
        knob.top := h;
      }
    }

    /** The `Desktop` setter: move the `MouseMoved` subscription to the new desktop. */
    method SetDesktop(d: Desktop?)
      modifies this`desktop, desktop, d
      ensures desktop == d
      ensures d != null ==>
        && d.mouseMovedListeners == old(d.mouseMovedListeners) + {this}
        && d.touchUpListeners == old(d.touchUpListeners)
      ensures old(desktop) != null && old(desktop) != d ==>
        && old(desktop).mouseMovedListeners == old(desktop.mouseMovedListeners) - {this}
        && old(desktop).touchUpListeners == old(desktop.touchUpListeners)
      ensures old(desktop) != null ==> old(desktop).OnlyListenersChanged()
      ensures d != null ==> d.OnlyListenersChanged()
      ensures old(forall x: Desktop :: this in x.mouseMovedListeners ==> x == desktop)
        ==> forall x: Desktop :: this in x.mouseMovedListeners ==> x == d
    {
      if desktop != null {
        desktop.mouseMovedListeners := desktop.mouseMovedListeners - {this};
      }
      desktop := d;
      if desktop != null {
        desktop.mouseMovedListeners := desktop.mouseMovedListeners + {this};
      }
    }

    /** `SyncHintWithValue`: place the knob by the value-to-offset mapping. */
    method SyncHintWithValue(bounds: Rect, knobBounds: Rect)
      requires maximum != 0.0
      modifies knob`left, knob`top
      ensures Hint() == ForwardHint(MaxHint(bounds, knobBounds), value, maximum)
      ensures 0.0 <= value <= maximum && 0 <= MaxHint(bounds, knobBounds) ==>
        0 <= Hint() && Hint() + Along(orientation, knobBounds) <= Along(orientation, bounds)
      ensures orientation == Horizontal ==> knob.top == old(knob.top)
      ensures orientation == Vertical ==> knob.left == old(knob.left)
    {
      SetHint(TruncateToInt(MaxHint(bounds, knobBounds) as real * (value / maximum)));
    }

    /**
     * The `Value` setter: clamp, ignore a value equal to the current one,
     * otherwise store it, move the knob and raise `ValueChanged` once.
     */
    method SetValue(v: real, bounds: Rect, knobBounds: Rect)
      requires maximum != 0.0
      modifies this`value, this`events, knob`left, knob`top
      ensures value == ClampValue(v, minimum, maximum)
      ensures value == old(value) ==>
        events == old(events) && knob.left == old(knob.left) && knob.top == old(knob.top)
      ensures value != old(value) ==>
        && events == old(events) + [ValueChanged(old(value), value)]
        && Hint() == ForwardHint(MaxHint(bounds, knobBounds), value, maximum)
        && (orientation == Horizontal ==> knob.top == old(knob.top))
        && (orientation == Vertical ==> knob.left == old(knob.left))
    {
      var w := v;
      if w > maximum {
        w := maximum;
      }
      if w < minimum {
        w := minimum;
      }
      if value == w {
        return;
      }
      var oldValue := value;
      value := w;
      SyncHintWithValue(bounds, knobBounds);
      events := events + [ValueChanged(oldValue, w)];
    }

    /**
     * `Arrange`: re-place the knob from the value. The knob's new offset
     * depends only on the value and the bounds, so arranging again with the
     * same bounds changes nothing.
     */
    method Arrange(bounds: Rect, knobBounds: Rect)
      requires maximum != 0.0
      modifies knob`left, knob`top
      ensures Hint() == ForwardHint(MaxHint(bounds, knobBounds), value, maximum)
      ensures orientation == Horizontal ==> knob.top == old(knob.top)
      ensures orientation == Vertical ==> knob.left == old(knob.left)
      ensures old(Hint()) == ForwardHint(MaxHint(bounds, knobBounds), value, maximum) ==>
        knob.left == old(knob.left) && knob.top == old(knob.top)
    {
      SyncHintWithValue(bounds, knobBounds);
    }

    /**
     * `UpdateHint`: clamp the pointer-derived offset onto the track, derive
     * the value from it (unless the track is empty), put the knob at the
     * clamped offset, and raise `ValueChanged` then `ValueChangedByUser` if
     * the value changed.
     */
    method UpdateHint(bounds: Rect, knobBounds: Rect, actualBounds: Rect, knobActualBounds: Rect)
      requires desktop != null
      modifies this`value, this`events, knob`left, knob`top
      ensures var maxHint := MaxHint(bounds, knobBounds);
        var h := ClampHint(GetHint(actualBounds, knobActualBounds), maxHint);
        && Hint() == h
        && value == (if maxHint != 0 then InverseValue(h, minimum, maximum, maxHint) else old(value))
      ensures value != old(value) ==>
        events == old(events) + [ValueChanged(old(value), value), ValueChangedByUser(old(value), value)]
      ensures value == old(value) ==> events == old(events)
      ensures 0 <= MaxHint(bounds, knobBounds) ==>
        0 <= Hint() && Hint() + Along(orientation, knobBounds) <= Along(orientation, bounds)
      ensures MaxHint(bounds, knobBounds) != 0 && minimum <= maximum ==> minimum <= value <= maximum
      ensures orientation == Horizontal ==> knob.top == old(knob.top)
      ensures orientation == Vertical ==> knob.left == old(knob.left)
    {
      var hint := GetHint(actualBounds, knobActualBounds);
      if hint < 0 {
        hint := 0;
      }
      var maxHint := MaxHint(bounds, knobBounds);
      if hint > maxHint {
        hint := maxHint;
      }
      var oldValue := value;
      var valueChanged := false;
      if maxHint != 0 {
        var newValue := InverseValue(hint, minimum, maximum, maxHint);
        if value != newValue {
          value := newValue;
          valueChanged := true;
        }
      }
      SetHint(hint);
      if valueChanged {
        events := events + [ValueChanged(oldValue, value)];
        events := events + [ValueChangedByUser(oldValue, value)];
      }
    }

    /** `OnTouchDown`: follow the pointer once, then mark the knob pressed. */
    method OnTouchDown(bounds: Rect, knobBounds: Rect, actualBounds: Rect, knobActualBounds: Rect)
      requires desktop != null
      modifies this`value, this`events, knob`left, knob`top, knob`isPressed
      ensures knob.isPressed
      ensures var maxHint := MaxHint(bounds, knobBounds);
        var h := ClampHint(GetHint(actualBounds, knobActualBounds), maxHint);
        && Hint() == h
        && value == (if maxHint != 0 then InverseValue(h, minimum, maximum, maxHint) else old(value))
      ensures value != old(value) ==>
        events == old(events) + [ValueChanged(old(value), value), ValueChangedByUser(old(value), value)]
      ensures value == old(value) ==> events == old(events)
      ensures 0 <= MaxHint(bounds, knobBounds) ==>
        0 <= Hint() && Hint() + Along(orientation, knobBounds) <= Along(orientation, bounds)
      ensures MaxHint(bounds, knobBounds) != 0 && minimum <= maximum ==> minimum <= value <= maximum
      ensures orientation == Horizontal ==> knob.top == old(knob.top)
      ensures orientation == Vertical ==> knob.left == old(knob.left)
    {
      UpdateHint(bounds, knobBounds, actualBounds, knobActualBounds);
      knob.isPressed := true;
    }

    /** `DesktopMouseMoved`: follow the pointer only while the knob is pressed. */
    method DesktopMouseMoved(bounds: Rect, knobBounds: Rect, actualBounds: Rect, knobActualBounds: Rect)
      requires desktop != null
      modifies this`value, this`events, knob`left, knob`top
      ensures !knob.isPressed ==>
        value == old(value) && events == old(events) && knob.left == old(knob.left) && knob.top == old(knob.top)
      ensures knob.isPressed ==>
        var maxHint := MaxHint(bounds, knobBounds);
        var h := ClampHint(GetHint(actualBounds, knobActualBounds), maxHint);
        && Hint() == h
        && value == (if maxHint != 0 then InverseValue(h, minimum, maximum, maxHint) else old(value))
        && (value != old(value) ==>
              events == old(events) + [ValueChanged(old(value), value), ValueChangedByUser(old(value), value)])
        && (value == old(value) ==> events == old(events))
        && (0 <= MaxHint(bounds, knobBounds) ==>
              0 <= Hint() && Hint() + Along(orientation, knobBounds) <= Along(orientation, bounds))
        && (MaxHint(bounds, knobBounds) != 0 && minimum <= maximum ==> minimum <= value <= maximum)
        && (orientation == Horizontal ==> knob.top == old(knob.top))
        && (orientation == Vertical ==> knob.left == old(knob.left))
    {
      if !knob.isPressed {
        return;
      }
      UpdateHint(bounds, knobBounds, actualBounds, knobActualBounds);
    }
  }
}
