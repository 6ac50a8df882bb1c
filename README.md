# MuekFramework widget core in Dafny

MuekFramework is a small retained-mode GUI toolkit for .NET. It draws with SkiaSharp into
an SDL window. This project models the part of it that is logic rather than drawing:

- the `Panel` composite: its children list, the packing `Add` performs, `Remove` and
  `Clear`, the hover hit test, the hover/press state machine, and the two `TransitionTo`
  animations;
- the value types of `Muek`: `Margin`, `MuekColor` and its palette, and the
  `Orientation` and `TextPosition` enums;
- the anchor and alignment computation of `Text`;
- the scroll state, wheel handler, children extent and alignment hook of `ScrollPanel`
  and `ScrollBar`;
- the overrides of `Button` and `ToggleButton`.

Modules:

| module | file | models |
|---|---|---|
| `Numerics` | numerics.dfy | `Vector2`, `float.Lerp`, `Vector2.Lerp`, `float.Clamp`, the `(byte)` cast |
| `Wrappers` | wrappers.dfy | `Option` |
| `Muek` | muek.dfy | `Muek.cs` |
| `Lists` | lists.dfy | `List<T>.IndexOf` and `List<T>.Remove` on sequences |
| `Panels` | panel.dfy | `Panel.cs` and the geometry half of `IControl.cs` |
| `Texts` | text.dfy | `Text.cs` |
| `ScrollPanels` | scrollpanel.dfy | `ScrollPanel.cs` |
| `ScrollBars` | scrollbar.dfy | `ScrollBar.cs` |
| `Buttons` | button.dfy | `Button.cs` |
| `ToggleButtons` | togglebutton.dfy | `ToggleButton.cs` |

How the C# maps to Dafny:

- **Classes.** `Panel`, `ScrollPanel`, `ScrollBar`, `Button` and `ToggleButton` are classes
  whose fields the methods update in place.
- **Inheritance by composition.** Each derived class holds its base object in a `const`
  field: `ScrollPanel.panel`, `Button.panel`, `ToggleButton.button`.
  - An override is a method of the derived class, and a `base.` call is a call on that
    field.
  - `Render(pointer)` and `Input(e)` replay the base class's render and input passes with
    the derived class's overrides in effect, i.e. the virtual dispatch of the C#.
- **Children** are `Control` objects. `Control` carries the position, size, scale and
  margin that `IControl` exposes.
- **Numbers.** `float` is `real`.
  - `(byte)` of an interpolated channel is truncation.
  - An enum is an `int` newtype, so a C# `switch` keeps its `default:` branch.
- **Inputs.** The pointer position that `SDL.GetMouseState` supplies is a parameter of
  `Render`. SDL events are the `InputEvent` datatype.
- **Events.**
  - `OnClick`, `OnCheck` and `OnUncheck` are counters that their handlers increment.
  - A render hook that a constructor subscribes to `OnRender` is a `RenderHook` method.
  - `Render` calls the hooks in subscription order.

Behaviours of the code that the proofs make explicit:

- **`Add` throws when re-adding the first child.** `Add` appends first, then reads
  `Children[IndexOf(control) - 1]`. If the control was already the first child, that
  index is `-1`. The child is appended anyway, and the exception leaves its position
  untouched (`Panels.Panel.Add`, `Panels.AddThrows`). `Add(List)` stops at the first
  such control (`Panels.AddsCleanlyIff`).
- **`Clear` empties only half the list.** `Clear` removes `Children[i]` while the list
  shrinks under the index, so it leaves half the children behind. On distinct children
  it keeps exactly those at odd positions.
- **An upward colour transition can stall short of its target.** Truncation keeps a
  rising channel where it is whenever `(to - from) * speed < 1`. Example: red from 100
  toward `LightMuek`'s 150 at speed 0.1 stops at 141. A falling channel always reaches
  its target.
- **The extent sum does not follow the layout axis.** Under `Vertical`,
  `GetChildrenSize` adds heights, although `Add` lays `Vertical` children out along X.
  `ScrollPanels.ExtentClosedForm` states this.
- **The wheel handler is not gated on hover.** It runs for every wheel event the panel
  receives; neither `ScrollPanel` nor `ScrollBar` checks `IsHovering`.
- **A disabled button's leave eases its scale.** It moves the scale toward one with
  `TransitionTo`; it does not set it.
- **A toggle flips even when disabled.** Its click flips `IsChecked` although
  `Button`'s click returns early. With animation off, a checked toggle ends every frame
  on its checked look. This holds even when disabled, because the toggle's render hook
  runs after the button's.

## Model

| member | source | states |
|---|---|---|
| `Numerics.Lerp` | MuekFramework/Graphics/Controls/Panel.cs:294-297 | `float.Lerp(a,b,t)` hits `a` at `t = 0` and `b` at `t = 1`. Its distance to `b` is the old distance times `1 - t`. For `t` in [0,1] it stays between `a` and `b`. |
| `Numerics.VecLerp` | MuekFramework/Graphics/Controls/Panel.cs:286 | `Vector2.Lerp` hits its endpoints exactly. For `t` in [0,1] each component stays between the two endpoints. |
| `Numerics.Clamp` | MuekFramework/Graphics/Controls/ScrollPanel.cs:14 | `float.Clamp(v, lo, hi)` lies in [lo, hi]. It is `v` when `v` is already in range, and otherwise one of the two bounds. |
| `Numerics.ByteCast` | MuekFramework/Graphics/Controls/Panel.cs:294 | The `(byte)` cast is the floor on [0,256). It never exceeds max(v, 0). |
| `Numerics.ByteCastBetween` | MuekFramework/Graphics/Controls/Panel.cs:294-297 | A value between two bytes converts to a byte between them. |
| `Muek.PaletteChannels` | MuekFramework/Graphics/Muek.cs:66-98 | `MuekColor()` is (255,255,255,255), i.e. `White`. `Black` is (0,0,0,255). `Transparent` is (255,255,255,0). |
| `Muek.MarginFieldsByPosition` | MuekFramework/Graphics/Muek.cs:19-25 | `Margin(l,t,r,b)` stores each argument in the field of the same name, in the order left, top, right, bottom. |
| `Muek.Row` | MuekFramework/Graphics/Muek.cs:40-51 | A declared anchor's row is 0, 1 or 2. |
| `Muek.Column` | MuekFramework/Graphics/Muek.cs:40-51 | A declared anchor's column is 0, 1 or 2. |
| `Muek.RowMajor` | MuekFramework/Graphics/Muek.cs:40-51 | The nine anchors are numbered row by row: value = 3·row + column. Row and column determine the anchor. |
| `Muek.AnchorNames` | MuekFramework/Graphics/Muek.cs:40-51 | Each named anchor has the row and column its name says, from `TopLeft` (top, left) to `BottomRight` (bottom, right). |
| `Lists.IndexOf` | MuekFramework/Graphics/Controls/Panel.cs:208 | `IndexOf` returns -1 exactly when the element is absent. Otherwise it returns the position of the element's first occurrence. |
| `Lists.IndexOfAppend` | MuekFramework/Graphics/Controls/Panel.cs:204-208 | Appending `x` leaves the index of an earlier occurrence unchanged. A new `x` is found at the old length. |
| `Lists.IndexOfAt` | MuekFramework/Graphics/Controls/Panel.cs:271 | An occurrence with no earlier copy is the one `IndexOf` finds. |
| `Lists.RemoveFirst` | MuekFramework/Graphics/Controls/Panel.cs:271 | `List.Remove` leaves an absent element's list unchanged. Otherwise exactly one occurrence is removed: the length drops by one and the multiset loses one copy. |
| `Lists.RemoveFirstKeepsPrefix` | MuekFramework/Graphics/Controls/Panel.cs:271 | Removal keeps everything before the removed occurrence in place and shifts the rest down by one. |
| `Panels.Control.constructor` | MuekFramework/Graphics/Controls/IControl.cs:13-25 | A child control stores its position, size and margin, and starts at unit scale. |
| `Panels.PackedPosition` | MuekFramework/Graphics/Controls/Panel.cs:205-217 | Closed forms of the position `Add` gives a child. With no previous sibling, or under an undeclared orientation: own + panel position + (left, top) margin. Under `Vertical`: X = own X + previous X + previous width + previous right margin, and Y = own Y + panel Y + top margin. Under `Horizontal`: the same along Y with the bottom margin. |
| `Panels.AddThrows` | MuekFramework/Graphics/Controls/Panel.cs:204-208 | `Add` throws exactly when, after the append, the list has more than one element and `IndexOf(control) - 1` is negative, i.e. when the control was already the first child. |
| `Panels.PreviousOfNewIsLast` | MuekFramework/Graphics/Controls/Panel.cs:204-208 | A control added for the first time is packed after the current last child. |
| `Panels.AddsCleanlyIff` | MuekFramework/Graphics/Controls/Panel.cs:228-234 | `Add(List)` runs without an exception iff the current first child is not among the added controls. On an empty panel the condition is instead that the first added control does not come again. When it runs cleanly, the children are the old ones followed by all the controls, in order. |
| `Panels.ClearLoop` | MuekFramework/Graphics/Controls/Panel.cs:276-282 | What `Clear`'s loop leaves when its counter starts at `i`. It never grows the list, removes at least one child when `i` is still in range, and is the identity once `i` reaches the end. |
| `Panels.OddPositions` | MuekFramework/Graphics/Controls/Panel.cs:276-282 | Every other element from the second: half the length, rounded down. |
| `Panels.ClearLeavesHalf` | MuekFramework/Graphics/Controls/Panel.cs:276-282 | `Clear`'s loop, started at `i`, leaves `i + (n - i)/2` children. A full `Clear` leaves ⌊n/2⌋. |
| `Panels.ClearKeepsOddPositions` | MuekFramework/Graphics/Controls/Panel.cs:276-282 | On distinct children, `Clear` leaves exactly those at odd positions, in order. |
| `Panels.ClearOfTwoKeepsSecond` | MuekFramework/Graphics/Controls/Panel.cs:276-282 | `Clear` on two distinct children leaves the second. |
| `Panels.HoveredIffInScaledBox` | MuekFramework/Graphics/Controls/Panel.cs:104-107 | The hover test's four strict inequalities hold iff the pointer is strictly inside a box of extent `size * scale`. The box is centred on the centre of the unscaled, margin-shifted rectangle. |
| `Panels.FlatPanelNeverHovered` | MuekFramework/Graphics/Controls/Panel.cs:104-107 | A panel with zero (or negative) scaled width or height is never hovered. |
| `Panels.ChannelLerp` | MuekFramework/Graphics/Controls/Panel.cs:294-297 | One truncated channel step is exact at speeds 0 and 1. For speeds in [0,1] it lies between the old channel and the target channel. |
| `Panels.ChannelStallsBelowTarget` | MuekFramework/Graphics/Controls/Panel.cs:294-297 | A rising channel stays put exactly when `(to - from) * speed < 1`. |
| `Panels.ChannelFallsTowardTarget` | MuekFramework/Graphics/Controls/Panel.cs:294-297 | A falling channel moves down by at least one and never passes its target. |
| `Panels.ChannelReachesLowerTarget` | MuekFramework/Graphics/Controls/Panel.cs:294-297 | Repeated transitions bring a channel at or above its target exactly to the target within `from - to` frames. |
| `Panels.ColorLerp` | MuekFramework/Graphics/Controls/Panel.cs:293-297 | The animated colour is exact at speeds 0 and 1. For speeds in [0,1] each of the four channels lies between old and target. |
| `Panels.ColorTransition` | MuekFramework/Graphics/Controls/Panel.cs:289-303 | With animation disabled (or speed 1) the colour becomes the target exactly. Animated at speed 0 it is unchanged. Animated at a speed in [0,1] nothing overshoots: every channel lies between old and target. |
| `Panels.ScaleTransition` | MuekFramework/Graphics/Controls/Panel.cs:284-287 | With animation disabled (or speed 1) the scale becomes the target exactly. Animated, each component's distance to the target shrinks by the factor `1 - speed`. For speeds in [0,1] each component lies between old and target. |
| `Panels.Panel.constructor` | MuekFramework/Graphics/Controls/Panel.cs:13-51 | Size and position come from the arguments. Colour, hover colour and render colour are all the given colour. Defaults: unit scale, margin 5, `Vertical` orientation, transparent border with radius 0 and thickness 0, opacity 255, layer 0, speed 0.05, animation disabled, no children, neither hovered nor pressed. |
| `Panels.Panel.TransitionToScale` | MuekFramework/Graphics/Controls/Panel.cs:284-287 | Only `Scale` changes, to `ScaleTransition` of the old scale. |
| `Panels.Panel.TransitionToColor` | MuekFramework/Graphics/Controls/Panel.cs:289-303 | Only `RenderColor` changes, to `ColorTransition` of the old colour. |
| `Panels.Panel.OnHover` | MuekFramework/Graphics/Controls/Panel.cs:151-159 | Hovered, layer 1, and one transition step toward the hover colour and hover scale. |
| `Panels.Panel.OnLeave` | MuekFramework/Graphics/Controls/Panel.cs:164-172 | Not hovered, layer 0, and one transition step toward the base colour and unit scale. |
| `Panels.Panel.OnPointerClicked` | MuekFramework/Graphics/Controls/Panel.cs:177-180 | Sets `IsPressed`. |
| `Panels.Panel.OnPointerReleased` | MuekFramework/Graphics/Controls/Panel.cs:192-195 | Clears `IsPressed`. |
| `Panels.Panel.Render` | MuekFramework/Graphics/Controls/Panel.cs:101-113 | After a render pass, `IsHovering` is the hit test of the pointer, and `RenderLayer` is 1 exactly when hovering. Colour and scale take one step toward the hover look or the base look accordingly. |
| `Panels.Panel.Input` | MuekFramework/Graphics/Controls/Panel.cs:130-146 | A pointer-down presses the panel only when it is hovered. A pointer-up clears `IsPressed`. Any other event leaves it unchanged. |
| `Panels.Panel.Add` | MuekFramework/Graphics/Controls/Panel.cs:202-221 | The control is appended after the old children, which keep their order. `ok` is false exactly when the control was already the first child, and then its position is unchanged. Otherwise its position is `PackedPosition` of its old position and its previous sibling. |
| `Panels.Panel.AddAll` | MuekFramework/Graphics/Controls/Panel.cs:228-234 | Children are appended in order up to and including the first control whose `Add` throws. `ok` tells whether none threw. Only the added controls' positions may change; their size, margin and scale stay as they were. |
| `Panels.Panel.Remove` | MuekFramework/Graphics/Controls/Panel.cs:269-274 | The children list loses the control's first occurrence, as `RemoveFirst` states. |
| `Panels.Panel.Clear` | MuekFramework/Graphics/Controls/Panel.cs:276-282 | The children are what the as-written loop leaves, i.e. `ClearLoop` from index 0. |
| `Panels.Panel.ClearIntended` | MuekFramework/Graphics/Controls/Panel.cs:276-282 | Removing until nothing is left empties the children. |
| `Texts.NewText` | MuekFramework/Graphics/Controls/Text.cs:15-33 | A new text has the given content, size (default -1 by -1) and position. It is anchored `TopLeft`, black at font size 12, unit scale, margin 5, opacity 255, layer 0. |
| `Texts.Anchor` | MuekFramework/Graphics/Controls/Text.cs:44-91 | The anchor's column fixes X and the alignment: left column gives `Position.X` and Left; middle column gives `+ Size.X/2` and Center; right column gives `+ Size.X` and Right. The row fixes Y: top row `Position.Y + FontSize`; middle row adds `Size.Y/2 - FontSize/1.5`; bottom row adds `Size.Y - FontSize*1.5`. An undeclared value gives the top-left point with Left alignment. |
| `Texts.UndeclaredAnchorIsTopLeft` | MuekFramework/Graphics/Controls/Text.cs:51-90 | The `default:` branch gives the same anchor as `TopLeft`. |
| `Texts.AnchorIgnoresScale` | MuekFramework/Graphics/Controls/Text.cs:44-91 | Scale never moves the anchor. |
| `Texts.DrawnFontSize` | MuekFramework/Graphics/Controls/Text.cs:96 | At X scale 1 the drawn size is the font size. It is zero exactly when the X scale or the font size is zero. |
| `Texts.ScaleYIgnored` | MuekFramework/Graphics/Controls/Text.cs:11-96 | Changing `Scale.Y` changes neither the drawn font size nor the anchor. |
| `ScrollPanels.FootprintsOf` | MuekFramework/Graphics/Controls/ScrollPanel.cs:87-100 | One footprint per child, in order, recording that child's size and margin. |
| `ScrollPanels.ExtentNonNegative` | MuekFramework/Graphics/Controls/ScrollPanel.cs:84-101 | Children with non-negative sizes and margins give a non-negative extent that covers at least their margins on each axis. |
| `ScrollPanels.ExtentClosedForm` | MuekFramework/Graphics/Controls/ScrollPanel.cs:89-99 | X collects every child's left and right margins, plus the widths under `Horizontal` only. Y collects top and bottom margins, plus the heights under `Vertical` only. |
| `ScrollPanels.ExtentAppend` | MuekFramework/Graphics/Controls/ScrollPanel.cs:87-100 | Each further child adds its own contribution: the step of the `foreach`. |
| `ScrollPanels.ExtentConcat` | MuekFramework/Graphics/Controls/ScrollPanel.cs:87-100 | The extent of two runs of children is the sum of their extents. |
| `ScrollPanels.ExtentSwap` | MuekFramework/Graphics/Controls/ScrollPanel.cs:87-100 | The extent does not depend on the order of two runs of children. |
| `ScrollPanels.WheelScrollY` | MuekFramework/Graphics/Controls/ScrollPanel.cs:54-66 | A non-wheel event or a zero delta leaves `ScrollY` unchanged. The two guarded branches together set it to `clamp(ScrollY - deltaY * speed)` for any non-zero delta. An in-range value stays in [0,100]. |
| `ScrollPanels.WheelScrollX` | MuekFramework/Graphics/Controls/ScrollPanel.cs:67-75 | The same for `ScrollX`, which is set to `clamp(ScrollX + deltaX * speed)`. |
| `ScrollPanels.WheelDirection` | MuekFramework/Graphics/Controls/ScrollPanel.cs:58-75 | At non-negative speeds, turning up never raises `ScrollY`, and turning right never lowers `ScrollX`. |
| `ScrollPanels.AlignHook` | MuekFramework/Graphics/Controls/ScrollPanel.cs:38-53 | An axis whose children extent is below the panel size has its scroll forced to 0; otherwise the scroll is kept. Index 0 moves back by the overflow times the resulting percentage on each axis. Every other index gets its offset back unchanged. |
| `ScrollPanels.AlignShiftBounded` | MuekFramework/Graphics/Controls/ScrollPanel.cs:41-51 | For percentages in [0,100], the pixels subtracted from the first child's offset on each axis lie between 0 and the overflow `extent - size`. The shift is 0 on an axis without overflow. |
| `ScrollPanels.ShiftBounded` | MuekFramework/Graphics/Controls/ScrollPanel.cs:49-50 | An overflow scaled by a percentage in [0,100] lies in [0, max(0, overflow)]. |
| `ScrollPanels.HalfScrolledScenario` | MuekFramework/Graphics/Controls/ScrollPanel.cs:38-101 | Two 100×190 children under `Vertical` reach 400 along Y in a 200×200 panel. At 50% the first child moves up 100 pixels, and the X scroll is forced to 0. |
| `ScrollPanels.ScrollPanel.constructor` | MuekFramework/Graphics/Controls/ScrollPanel.cs:23-29 | A new panel of the given colour and geometry, laid out `Vertical`, unscrolled, with both speeds 10. The base `Panel` defaults hold: render and hover colour equal the colour, unit scale and hover scale, margin 5, transparent border with radius 0 and thickness 0, opacity 255, layer 0, speed 0.05, animation disabled, no children. |
| `ScrollPanels.ScrollPanel.Transparent` | MuekFramework/Graphics/Controls/ScrollPanel.cs:30-34 | The same on a transparent panel: colour, render colour and hover colour are `Transparent`, with every other `Panel` default as above, `Vertical`, unscrolled, both speeds 10. |
| `ScrollPanels.ScrollPanel.SetScrollX` | MuekFramework/Graphics/Controls/ScrollPanel.cs:11-15 | The setter stores the clamped value, which lies in [0,100]. |
| `ScrollPanels.ScrollPanel.SetScrollY` | MuekFramework/Graphics/Controls/ScrollPanel.cs:17-21 | The setter stores the clamped value, which lies in [0,100]. |
| `ScrollPanels.ScrollPanel.OnWheel` | MuekFramework/Graphics/Controls/ScrollPanel.cs:54-77 | The handler leaves both percentages as `WheelScrollY`/`WheelScrollX` say, which keeps them in [0,100]. |
| `ScrollPanels.ScrollPanel.WheelY` | MuekFramework/Graphics/Controls/ScrollPanel.cs:58-66 | The two vertical branches of the handler. |
| `ScrollPanels.ScrollPanel.WheelX` | MuekFramework/Graphics/Controls/ScrollPanel.cs:67-75 | The two horizontal branches of the handler. |
| `ScrollPanels.ScrollPanel.Input` | MuekFramework/Graphics/Controls/Panel.cs:130-146 | The panel's press/release rule, followed by the wheel handler that `OnInput` runs. |
| `ScrollPanels.ScrollPanel.GetChildrenSize` | MuekFramework/Graphics/Controls/ScrollPanel.cs:84-102 | The accumulating loop returns `Extent` of the children's footprints under the panel's orientation. |
| `ScrollPanels.ScrollPanel.Align` | MuekFramework/Graphics/Controls/ScrollPanel.cs:38-53 | The returned offset and the new percentages are those of `AlignHook` over the children's extent, and stay in [0,100]. |
| `ScrollBars.BarAlignHook` | MuekFramework/Graphics/Controls/ScrollBar.cs:38-68 | A missing children list yields the zero vector and changes neither percentage. With a list, the scroll of an axis whose extent is below the bar size is forced to 0, and indices other than 0 pass through. |
| `ScrollBars.BarShiftBounded` | MuekFramework/Graphics/Controls/ScrollBar.cs:56-66 | With a list present, the first child's shift lies between 0 and the overflow on each axis. |
| `ScrollBars.NullChildrenDropOffset` | MuekFramework/Graphics/Controls/ScrollBar.cs:41-67 | Without a list, the offset of a child other than the first is lost, where an empty list would pass it through. |
| `ScrollBars.ScrollBar.constructor` | MuekFramework/Graphics/Controls/ScrollBar.cs:23-29 | A new bar of the given colour and geometry, laid out `Vertical`, unscrolled, with both speeds 10. The base `Panel` defaults hold: render and hover colour equal the colour, unit scale and hover scale, margin 5, transparent border with radius 0 and thickness 0, opacity 255, layer 0, speed 0.05, animation disabled, no children. |
| `ScrollBars.ScrollBar.Transparent` | MuekFramework/Graphics/Controls/ScrollBar.cs:30-34 | The same on a transparent panel: colour, render colour and hover colour are `Transparent`, with every other `Panel` default as above, `Vertical`, unscrolled, both speeds 10. |
| `ScrollBars.ScrollBar.SetScrollX` | MuekFramework/Graphics/Controls/ScrollBar.cs:11-15 | The setter stores the clamped value, which lies in [0,100]. |
| `ScrollBars.ScrollBar.SetScrollY` | MuekFramework/Graphics/Controls/ScrollBar.cs:17-21 | The setter stores the clamped value, which lies in [0,100]. |
| `ScrollBars.ScrollBar.OnWheel` | MuekFramework/Graphics/Controls/ScrollBar.cs:69-92 | The handler leaves both percentages as `WheelScrollY`/`WheelScrollX` say, which keeps them in [0,100]. |
| `ScrollBars.ScrollBar.WheelY` | MuekFramework/Graphics/Controls/ScrollBar.cs:73-81 | The two vertical branches of the handler. |
| `ScrollBars.ScrollBar.WheelX` | MuekFramework/Graphics/Controls/ScrollBar.cs:82-90 | The two horizontal branches of the handler. |
| `ScrollBars.ScrollBar.Input` | MuekFramework/Graphics/Controls/Panel.cs:130-146 | The panel's press/release rule, followed by the wheel handler. |
| `ScrollBars.ScrollBar.Align` | MuekFramework/Graphics/Controls/ScrollBar.cs:38-68 | The inline loop's sum is `Extent`. The result and the new percentages are those of `BarAlignHook` with the children present. |
| `ScrollBars.ScrollBar.ApplyExtent` | MuekFramework/Graphics/Controls/ScrollBar.cs:56-67 | Once the extent is known, the offset and new percentages are `AlignHook`'s: an axis whose extent is below the bar size has its scroll forced to 0; index 0 moves back by the overflow times the percentage; other indices pass through. Both percentages stay in [0,100]. |
| `Buttons.Button.constructor` | MuekFramework/Graphics/Controls/Button.cs:7-27 | Pressed colour equals the base colour. Border is grey, radius 4, thickness 2. Hover scale 1.05, animation enabled, speed 0.1. Clicked scale 0.95, pressed scale 0.98. Enabled, with no clicks. |
| `Buttons.Button.OnLeave` | MuekFramework/Graphics/Controls/Button.cs:36-46 | Not hovered, layer 0, and the scale steps toward one. An enabled button's colour steps toward its base colour; a disabled one's colour is untouched. |
| `Buttons.Button.OnPointerPressed` | MuekFramework/Graphics/Controls/Button.cs:48-55 | One step toward the pressed colour and the pressed scale. |
| `Buttons.Button.OnPointerReleased` | MuekFramework/Graphics/Controls/Button.cs:57-64 | Not pressed, and one step toward the base colour and unit scale. |
| `Buttons.Button.OnPointerClicked` | MuekFramework/Graphics/Controls/Button.cs:66-72 | While disabled nothing changes: not pressed, same scale, no `OnClick`. Otherwise the button is pressed, its scale becomes the clicked scale exactly, and `OnClick` fires once. |
| `Buttons.Button.RenderHook` | MuekFramework/Graphics/Controls/Button.cs:28-33 | A disabled button's colour steps toward the disabled colour. An enabled one's is untouched. |
| `Buttons.Button.Render` | MuekFramework/Graphics/Controls/Panel.cs:101-114 | In order: the hover test with the button's leave, the pressed step while pressed, then the disabled hook. The ensures give the resulting colour and scale in closed form. A disabled button with animation off ends on its disabled colour. |
| `Buttons.Button.Input` | MuekFramework/Graphics/Controls/Panel.cs:130-146 | A pointer-down on a hovered, enabled button clicks it: pressed, clicked scale, one `OnClick`. Otherwise a pointer-down changes nothing. A pointer-up releases. On a pressed button it also eases the colour toward the base colour and the scale toward one; on an unpressed one it keeps the scale. The colour changes only on a pointer-up of a pressed button. A disabled button never becomes pressed. |
| `Buttons.HoverScenario` | MuekFramework/Graphics/Controls/Button.cs:17-27 | A Muek-green button at (300,200), 200×200, with hover colour `LightMuek` and the pointer at (400,300), is hovered at layer 1 after one frame. Its colour is (105,205,155,255) and its scale 1.005. |
| `ToggleButtons.ToggleButton.constructor` | MuekFramework/Graphics/Controls/ToggleButton.cs:7-14 | Unchecked. The checked colour is the base colour and the checked scale is one. Every `Button` default holds: pressed colour equal to the colour, grey border with radius 4 and thickness 2, hover scale 1.05, animation enabled at speed 0.1, clicked scale 0.95, pressed scale 0.98, unit scale, margin 5, `Vertical`, enabled, no children and no clicks. |
| `ToggleButtons.ToggleButton.OnPointerClicked` | MuekFramework/Graphics/Controls/ToggleButton.cs:22-26 | `IsChecked` always flips. The button's own click effects happen only when enabled. |
| `ToggleButtons.ToggleButton.OnLeave` | MuekFramework/Graphics/Controls/ToggleButton.cs:28-34 | Not hovered, layer 0. A checked toggle keeps its colour and scale; an unchecked one leaves like a button. |
| `ToggleButtons.ToggleButton.OnChecked` | MuekFramework/Graphics/Controls/ToggleButton.cs:36-43 | One step toward the checked colour and scale, and `OnCheck` fires once. |
| `ToggleButtons.ToggleButton.OnUnchecked` | MuekFramework/Graphics/Controls/ToggleButton.cs:45-48 | `OnUncheck` fires once and nothing else changes. |
| `ToggleButtons.ToggleButton.RenderHook` | MuekFramework/Graphics/Controls/ToggleButton.cs:15-19 | Checked: `OnChecked`; unchecked: `OnUncheck` only. |
| `ToggleButtons.ToggleButton.PointerStep` | MuekFramework/Graphics/Controls/ToggleButton.cs:28-34 | The hover test with the toggle's leave, then the pressed step. Hovered: one step toward the hover look. Not hovered and checked: colour and scale kept. Not hovered and unchecked: the button's leave. While pressed: then one step toward the pressed look. |
| `ToggleButtons.ToggleButton.Render` | MuekFramework/Graphics/Controls/ToggleButton.cs:15-34 | Exactly one of `OnCheck` and `OnUncheck` fires per frame, by state. The new colour and scale are in closed form: `PointerStep`, then the disabled hook toward the disabled colour, then a checked toggle's step toward its checked look. With animation off a checked toggle ends on its checked colour and scale, even when disabled. |
| `ToggleButtons.ToggleButton.Input` | MuekFramework/Graphics/Controls/ToggleButton.cs:22-26 | A pointer-down on a hovered toggle flips `IsChecked`, disabled or not; no other event touches it. Pressed state, scale, colour and `OnClick` follow `Buttons.Button.Input`'s rules: an enabled, hovered toggle is clicked; a pointer-up releases, easing a pressed toggle back; the colour changes only then. |
| `ToggleButtons.ToggleButton.ClickTwice` | MuekFramework/Graphics/Controls/ToggleButton.cs:25 | Two clicks restore `IsChecked`. `OnClick` fires twice when enabled and never when disabled. |

## Left out

- Drawing: the Skia calls, the `SKPaint`/`SKFont` values and the `SKPaint` that `MuekColor` holds are foreign code.
- The pointer query of `SDL.GetMouseState` is not modelled. The pointer position is a parameter of `Render` instead.
- `MuekWindow` (the SDL window, event pump and frame presentation) is I/O against a native library. The sample program is demo wiring only.
- The `OnRender`/`OnInput` delegate chains are not modelled: the subscriptions in `Add`, `Remove` and `Clear`, the children's render and input passes, and the layer-promotion loop. Promotion depends on C# delegate equality for freshly created closures.
- `MuekColor.FromHsl` is a Skia HSL conversion.
- `AddText` (both overloads) is left out, because a `Text` is a value here and not a `Control` child. `AddText(Text)` gives the text the panel's size when either of its dimensions is negative, then calls `Add`. `AddText(content, fontSize, position, color)` always builds a new `Text` at the panel's size truncated to `int`, anchored `Center` by default, with the given font size and, when one is given, the given colour; then it calls `Add`.
- `Text.Input` is left out: it only forwards the event to `OnInput`, a delegate chain. The null `Children` field of a new `Text` is left out because `Text` is a value here and has no children field.
- A `null` `Children` list of a panel is not modelled. `ScrollBar`'s hook models its null case as the pure `ScrollBars.BarAlignHook`, but the class's children list is never null.
- When a child is itself a panel, the model's `Control` entry is a separate object from that panel's own fields.
- IEEE single-precision rounding is not modelled, because floats are reals. The `(byte)` cast saturates outside [0,255] as on .NET 9; for speeds in [0,1], transitions only produce values inside that range.
- `DisabledColor` is a constructor parameter. Its default `Muek.MuekColors.MuekGrey` does not exist in the palette.
- `OnAlign` is not wired into `Panel`'s layout: `Panel` (Panel.cs) declares no `OnAlign` event. Each scroll class has it as an `Align` method.
- `ScrollPanel`'s render hook only computes a value it discards, and `ScrollBar`'s is empty, so neither is modelled.
- `Panels.Panel.AddAll`: the positions it assigns are not stated, only the resulting list and whether it threw. Each position follows from `Panels.Panel.Add`'s contract.

## Findings

| source | as written | input that shows it | evidently intended | confidence | as-written member | corrected member |
|---|---|---|---|---|---|---|
| MuekFramework/Graphics/Controls/Panel.cs:276-282 | `for (i = 0; i < Children.Count; i++) Remove(Children[i])` removes from the list it indexes, so every removal skips the next child | two distinct children `[a, b]`: `Clear` leaves `[b]`; in general ⌊n/2⌋ children, those at odd positions | `Clear` removes every child | not executed | `Panels.Panel.Clear` (with `Panels.ClearOfTwoKeepsSecond`, `Panels.ClearLeavesHalf`, `Panels.ClearKeepsOddPositions`) | `Panels.Panel.ClearIntended` |
