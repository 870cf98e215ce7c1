# Myra Window and Slider, modelled in Dafny

This project models two interactive widgets of the Myra UI toolkit. Both are
single-threaded event handlers over a few fields.

- **`Window`** holds a drag anchor, a "placed once" flag and an optional
  content widget in its internal grid. It subscribes to its desktop's
  `MouseMoved` and `TouchUp` broadcasts. The model covers these handlers:
  - a touch-down on the title bar records the anchor;
  - every desktop mouse move drags the window, clamped to its parent or desktop;
  - any touch-up ends the drag;
  - the first layout after attachment centres the window;
  - `ShowModal` adds the window to a desktop and focuses it;
  - `Close` removes the window from its desktop and raises `Closed` once.
- **`Slider`** binds a value in `[Minimum, Maximum]` to the pixel offset of
  its knob. The `Value` setter clamps the value, ignores a value equal to the
  current one, re-places the knob, and raises `ValueChanged`. A touch-down, or
  a mouse move while the knob is pressed, turns the pointer position into a
  knob offset and a value, and raises `ValueChanged` then `ValueChangedByUser`.
  `Arrange` re-places the knob from the value.

## How the source is represented

- Files:
  - `geometry.dfy`: XNA `Point` and `Rectangle` (`Right = X + Width`,
    `Bottom = Y + Height`, half-open `Contains`), plus the two C# truncations
    (integer `/ 2` and the `(int)` cast), both toward zero.
  - `desktop.dfy`: the desktop and a grid child widget.
  - `window.dfy`: the `Window` class.
  - `slider.dfy`: the `Slider` class and the pure mapping functions it uses.
  - `wrappers.dfy`: `Option`, which stands for C#'s `Point?`.
- The desktop is a class with a `widgets` sequence, a `focusedWidget`, a
  listener set for each broadcast, the pointer position and its bounds.
  Subscribing with `+=` adds the widget to a listener set; `-=` removes it.
- Events are logs: raising an event appends one entry, with its
  `(old, new)` payload for the slider.
- The layout engine is not modelled. The bounds it computes are parameters of
  the operations that read them: `Bounds`, `ActualBounds`, `ContainerBounds`,
  the parent's and the title grid's bounds, and the knob's bounds.
- C# `float` is Dafny `real`.
- `Collection.Remove`, used on the grid's and the desktop's widget lists, is
  `Desktops.RemoveFirst`: it drops the first occurrence.
- The desktop's own code is not part of this model. The model assumes that
  adding a widget to `Desktop.Widgets` sets that widget's `Desktop` to that
  desktop, and that removing it sets `Desktop` to null. Both run the window's
  `Desktop` setter. The model uses this link in `ShowModal` and `Close`, so
  once a window is closed, a second `Close` does nothing.
- The two slider mappings are reproduced as written, and they are not
  inverses of each other:
  - value to offset is `(int)(MaxHint * (Value / Maximum))`, which ignores
    `Minimum`;
  - offset to value is `Minimum + hint * (Maximum - Minimum) / MaxHint`.

  `Sliders.ForwardThenInverse` proves that with `Minimum = 0` the two agree up
  to one knob pixel. `Sliders.ForwardIgnoresMinimum` proves that they disagree
  when `Minimum` is at least one pixel's worth (`Maximum / MaxHint`): the
  value `Minimum` then puts the knob at a positive offset.

Three behaviours of the code worth noting:
- The window's `Desktop` setter does not clear the drag anchor. A drag
  anchor therefore survives being re-attached.
- `UpdateHint` stores the value it derives without clamping it. That value is
  in `[Minimum, Maximum]` whenever `MaxHint != 0` and `Minimum <= Maximum`:
  a negative `MaxHint` clamps the offset to `MaxHint` itself, which maps to
  `Maximum`.
- `UpdateHint` moves the knob to the clamped offset even when the value does
  not change.

## Model

| member | source | states |
|---|---|---|
| Geometry.HalfTowardZero | src/Myra/Graphics2D/UI/Window.cs:234-235 | C# `a / 2` truncates toward zero: the remainder `a - 2q` is 0 or 1 for `a >= 0`, and 0 or -1 for `a < 0` |
| Geometry.TruncateToInt | src/Myra/Graphics2D/UI/Slider.cs:178 | `(int)x` truncates toward zero: the result lies within one unit of `x`, on the side of zero |
| Desktops.RemoveFirst | src/Myra/Graphics2D/UI/Window.cs:351 | `Widgets.Remove(w)` leaves the list the same when `w` is absent, and otherwise makes it one element shorter |
| Desktops.RemoveFirstMultiset | src/Myra/Graphics2D/UI/Window.cs:351 | `Widgets.Remove(w)` takes away exactly one occurrence of `w` and keeps every other element |
| Desktops.RemoveFirstAt | src/Myra/Graphics2D/UI/Window.cs:351 | when `w` first occurs at index `i`, `Widgets.Remove(w)` yields the elements before `i` followed by those after it, in their original order |
| Desktops.RemoveFirstOfPair | src/Myra/Graphics2D/UI/Window.cs:89-92 | removing the content from `[titleGrid, content]` leaves `[titleGrid]` |
| Windows.Window.constructor | src/Myra/Graphics2D/UI/Window.cs:162-204 | a new window's grid holds only the title grid; it has no content and no drag anchor, is not placed, is detached, and has raised no event |
| Windows.Window.SetContent | src/Myra/Graphics2D/UI/Window.cs:81-101 | setting the current content changes nothing; otherwise the old content is removed from the grid, a non-null new content gets `GridRow = 1` and is appended, and the grid invariant "title grid, then the content if any" is kept |
| Windows.Window.SetDesktop | src/Myra/Graphics2D/UI/Window.cs:140-157 | both handlers leave the old desktop before they join the new one (re-assigning the same desktop keeps them subscribed); if the window listened only to its old desktop, afterwards it listens only to the new one; only the listener sets change; `IsWindowPlaced` becomes false |
| Windows.Window.UpdateLayout | src/Myra/Graphics2D/UI/Window.cs:215-224 | the window is centred only while not yet placed and is placed afterwards; a later layout leaves `Left`/`Top` alone; a detached window is not moved, yet it is marked placed |
| Windows.Window.CenterOnDesktop | src/Myra/Graphics2D/UI/Window.cs:226-236 | detached: nothing moves; attached: `Left`/`Top` are the centred offsets of the window in `ContainerBounds` |
| Windows.CenteredOffset | src/Myra/Graphics2D/UI/Window.cs:233-235 | the centred offset leaves margins on the two sides that differ by at most one pixel; it is non-negative when the window fits |
| Windows.CenterExample | src/Myra/Graphics2D/UI/Window.cs:233-235 | a 200×100 window on 800×600 is centred at (300, 250) |
| Windows.Window.DesktopOnMouseMoved | src/Myra/Graphics2D/UI/Window.cs:238-290 | without an anchor `Left`/`Top` stay put; with one, each axis is `mouse - anchor` clamped by `DragAxis` against the parent's far edge, or the desktop's when there is no parent; nothing else changes; the bounding area is the parent's bounds when there is a parent and the desktop's otherwise (`Windows.BoundingRect`) |
| Windows.DragAxis | src/Myra/Graphics2D/UI/Window.cs:248-286 | when the window fits (`extent <= far`), the clamped position is in `[0, far - extent]`: it equals `mouse - anchor` exactly when that is already in range, is 0 when that is negative, and is `far - extent` when it overshoots the far edge; an oversized window ends at `far - extent` |
| Windows.DragExample | src/Myra/Graphics2D/UI/Window.cs:245-289 | anchor (10, 10) and pointer (60, 60) on 800×600 place a 300×100 window at (50, 50) |
| Windows.Window.DesktopTouchUp | src/Myra/Graphics2D/UI/Window.cs:292-295 | a desktop-wide touch-up clears the anchor and changes nothing else |
| Windows.Window.OnTouchUp | src/Myra/Graphics2D/UI/Window.cs:297-302 | a touch-up on the window clears the anchor and changes nothing else |
| Windows.Window.OnTouchDown | src/Myra/Graphics2D/UI/Window.cs:304-319 | the anchor becomes `mouse - ActualBounds.Location` if the pointer is inside the header rectangle, and is left as it was otherwise |
| Windows.HeaderRect | src/Myra/Graphics2D/UI/Window.cs:308-314 | the header rectangle starts at the window's origin and ends at the title grid's right/bottom edge; a point is inside it iff `Bounds.X <= x < TitleRight` and `Bounds.Y <= y < TitleBottom` |
| Windows.Window.ShowModal | src/Myra/Graphics2D/UI/Window.cs:336-340 | the window is appended to the desktop's widgets, attached to that desktop and focused; the desktop's two listener sets gain exactly this window and keep every other subscriber; its pointer position and bounds are unchanged; a different previous desktop loses only this window's subscriptions |
| Windows.Window.Close | src/Myra/Graphics2D/UI/Window.cs:342-359 | if the window is not on its desktop, neither the window nor the desktop changes; otherwise focus is cleared only if the window held it, exactly one occurrence of the window leaves `Widgets`, the window is detached, the desktop's listener sets lose exactly this window and keep every other subscriber, its pointer position and bounds are unchanged, and `Closed` is logged once; afterwards `Close`'s guard is false, so a second `Close` raises nothing |
| Sliders.ClampValue | src/Myra/Graphics2D/UI/Slider.cs:51-61 | the result is in `[Minimum, Maximum]` when `Minimum <= Maximum`; an in-range value is kept; a value above the range gives `Maximum` and one below gives `Minimum`; crossed bounds give `Minimum` |
| Sliders.ForwardHint | src/Myra/Graphics2D/UI/Slider.cs:178 | for a value in `[0, Maximum]` the knob offset is in `[0, MaxHint]`; value 0 gives offset 0 and `Maximum` gives `MaxHint`, whatever `Minimum` is |
| Sliders.ForwardBetween | src/Myra/Graphics2D/UI/Slider.cs:178 | the scaled offset `MaxHint * (Value / Maximum)` stays in `[0, MaxHint]` for values in `[0, Maximum]` |
| Sliders.ForwardExample | src/Myra/Graphics2D/UI/Slider.cs:176-216 | `Max = 100, Value = 50, MaxHint = 200` gives offset 100; with `Min = 50, MaxHint = 100` the value 50 gives offset 50, which maps back to 75 |
| Sliders.ClampHint | src/Myra/Graphics2D/UI/Slider.cs:198-207 | the pointer offset is clamped to `[0, MaxHint]` when `MaxHint >= 0`, and an in-range offset is kept; a negative `MaxHint` wins |
| Sliders.InverseValue | src/Myra/Graphics2D/UI/Slider.cs:212-222 | the value derived from an offset in `[0, MaxHint]` lies in `[Minimum, Maximum]` when `MaxHint > 0` and `Minimum <= Maximum`; offset 0 gives `Minimum` and `MaxHint` gives `Maximum` |
| Sliders.InverseBetween | src/Myra/Graphics2D/UI/Slider.cs:214-216 | `hint * d / MaxHint` lies in `[0, d]` for an on-track offset |
| Sliders.ForwardThenInverse | src/Myra/Graphics2D/UI/Slider.cs:176-216 | with `Minimum = 0`, mapping a value to an offset and back gives a value at most one pixel's worth (`Maximum / MaxHint`) below the original, never above |
| Sliders.ForwardIgnoresMinimum | src/Myra/Graphics2D/UI/Slider.cs:176-216 | when `Minimum` is positive and at least one pixel's worth (`Maximum <= MaxHint * Minimum`), the value `Minimum` puts the knob at a positive offset while offset 0 maps back to `Minimum`: the two mappings are asymmetric |
| Sliders.Slider.constructor | src/Myra/Graphics2D/UI/Slider.cs:148-161 | a new slider has `Minimum = 0`, `Maximum = 100`, `Value = 0`, an unpressed knob at offset 0, no desktop and no events |
| Sliders.Slider.SetHint | src/Myra/Graphics2D/UI/Slider.cs:81-104 | the `Hint` setter writes only `Left` for a horizontal slider and only `Top` for a vertical one, so the `Hint` getter (`Sliders.Slider.Hint`, lines 83-86) reads back the new offset; it changes nothing when the offset is unchanged |
| Sliders.Slider.SetDesktop | src/Myra/Graphics2D/UI/Slider.cs:122-136 | the `MouseMoved` subscription moves from the old desktop to the new one; if the slider listened only to its old desktop, it then listens only to the new one; no `TouchUp` listener and nothing else on either desktop changes |
| Sliders.Slider.GetHint | src/Myra/Graphics2D/UI/Slider.cs:163-167 | the pointer offset centres the knob under the pointer, with the odd pixel of the knob's extent to the far side |
| Sliders.Slider.SyncHintWithValue | src/Myra/Graphics2D/UI/Slider.cs:176-179 | the knob moves to `ForwardHint(MaxHint, Value, Maximum)` along its axis, and only along it; for a value in `[0, Maximum]` and a track that fits (`MaxHint >= 0`, where `MaxHint` at lines 106-114 is the slider's extent minus the knob's) the knob lies wholly inside the slider |
| Sliders.Slider.SetValue | src/Myra/Graphics2D/UI/Slider.cs:49-78 | the stored value is the clamped input; if it equals the old value, no event is logged and the knob stays put; otherwise exactly one `ValueChanged(old, new)` is logged, no `ValueChangedByUser`, and the knob is placed by the forward mapping |
| Sliders.Slider.Arrange | src/Myra/Graphics2D/UI/Slider.cs:181-186 | the knob is placed by the forward mapping from the unchanged value; when it is already there, nothing moves, so a second `Arrange` changes nothing |
| Sliders.Slider.UpdateHint | src/Myra/Graphics2D/UI/Slider.cs:196-240 | the knob is at the clamped pointer offset; the value is `InverseValue` of that offset, or unchanged when `MaxHint = 0`; a change logs `ValueChanged` then `ValueChangedByUser` with the same `(old, new)`; no change logs nothing; when the track fits (`MaxHint >= 0`) the knob lies wholly inside the slider; the value is in `[Minimum, Maximum]` whenever `MaxHint != 0` and `Minimum <= Maximum`; the off-axis coordinate is kept |
| Sliders.Slider.OnTouchDown | src/Myra/Graphics2D/UI/Slider.cs:188-194 | a touch-down has every effect `UpdateHint` promises (knob at the clamped offset and inside the slider, value, events, value range, off-axis coordinate kept) and leaves the knob pressed |
| Sliders.Slider.DesktopMouseMoved | src/Myra/Graphics2D/UI/Slider.cs:243-251 | with the knob not pressed, a mouse move changes nothing; with it pressed, it has every effect `UpdateHint` promises: knob at the clamped offset and inside the slider, value and events, value range, off-axis coordinate kept |

## Left out

- Style application (`ApplyWindowStyle`, `ApplySliderStyle`,
  `SetStyleByName`, `GetStyleNames`, the stylesheet lookups in the
  constructors): these are calls into `Stylesheet`, `TextBlock` and
  `ImageButton`, which are not part of this model.
- The title, colour and font properties, `Result`, the obsolete
  `DefaultModalResult` enum, and the JSON and editor attributes: they pass
  values through without logic.
- `base.UpdateLayout`, `base.Arrange`, `base.OnTouchDown`, `base.OnTouchUp`
  and the grid row and column proportions: the layout and input code of the
  base classes is not part of this model. The bounds it produces are inputs.
- The close button's click handler (`Window.cs:191-194`): it only calls
  `Close`.
- Releasing the knob (`IsPressed = false`): the button's own pointer-up
  handling does this, and that code is not part of this model.
- The broadcast itself: the desktop calling every subscribed handler is not
  modelled. Handlers are methods that callers invoke directly.
- Multicast delegate details: a handler subscribed twice is not
  distinguished from one subscribed once, because subscriptions are sets.
- IEEE floating point: rounding, NaN and infinities are not modelled;
  `float` is `real`. Overflow of the `(int)` cast is not modelled either.
- 32-bit integer wrap-around in the coordinate arithmetic: integers are
  unbounded.
- Side effects of the `Desktop.FocusedWidget` setter: that code is not part
  of this model, so focus is a plain field.
- Sliders.Slider.SetValue: requires `Maximum != 0` even when the clamped
  value equals the current one, where the source never divides. The
  forward mapping divides by `Maximum` without a guard, and C# would then
  produce NaN or an infinity.
- Sliders.Slider.SyncHintWithValue: requires `Maximum != 0`, for the same
  unguarded division.
- Sliders.Slider.Arrange: requires `Maximum != 0`, for the same unguarded
  division.
- Windows.Window.DesktopOnMouseMoved: requires an attached desktop. The
  handler is only invoked by that desktop's broadcast, and the source reads
  `Desktop.MousePosition` unguarded. This leaves the parentless, detached arm
  (`Window.cs:260`) unreachable.
- Windows.Window.OnTouchDown: requires an attached desktop, because the
  source reads `Desktop.MousePosition` unguarded.
- Sliders.Slider.UpdateHint, Sliders.Slider.OnTouchDown and
  Sliders.Slider.DesktopMouseMoved: require an attached desktop, because
  `GetHint` reads `Desktop.MousePosition` unguarded.
