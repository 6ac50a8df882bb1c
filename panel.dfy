/**
  `Panel`, the base composite: its children list with the packing done by `Add`,
  `Remove` and `Clear`; the hover hit test; the hover/press state machine; and the
  two `TransitionTo` overloads that animate scale and colour.
 */
module Panels {
  import opened Numerics
  import opened Muek
  import opened Wrappers
  import opened Lists

  /**
    The part of `IControl` a parent reads and writes: a child's position, size,
    scale and margin.
   */
  class Control {
    var position: Vec2
    var size: Vec2
    var scale: Vec2
    var margin: Margin

    constructor (position: Vec2, size: Vec2, margin: Margin := DefaultMargin)
      ensures this.position == position && this.size == size && this.margin == margin
      ensures scale == One
    {
      this.position := position;
      this.size := size;
      this.margin := margin;
      scale := One;
    }
  }

  /** What `Add` reads of the previous sibling. */
  datatype Sibling = Sibling(position: Vec2, size: Vec2, margin: Margin)

  function Snapshot(c: Control): Sibling
    reads c
  {
    Sibling(c.position, c.size, c.margin)
  }

  // ---------------------------------------------------------------------------
  // Packing

  /**
    The position `Add` gives a child whose own position is `own`: the offset after
    the previous sibling (zero for the first child and for an undeclared orientation)
    plus the panel's position and its left and top margins. Once the offset cancels,
    a later child sits right after the previous sibling's trailing edge and margin:
    along X under `Vertical`, along Y under `Horizontal`.
   */
  function PackedPosition(own: Vec2, panelPosition: Vec2, panelMargin: Margin,
                          orientation: Orientation, previous: Option<Sibling>): (r: Vec2)
    ensures previous.None? || !IsDeclaredOrientation(orientation) ==>
              r == Vec2(own.x + panelPosition.x + panelMargin.left, own.y + panelPosition.y + panelMargin.top)
    ensures previous.Some? && orientation == Vertical ==>
              var p := previous.value;
              r == Vec2(own.x + p.position.x + p.size.x + p.margin.right, own.y + panelPosition.y + panelMargin.top)
    ensures previous.Some? && orientation == Horizontal ==>
              var p := previous.value;
              r == Vec2(own.x + panelPosition.x + panelMargin.left, own.y + p.position.y + p.size.y + p.margin.bottom)
  {
    var offset :=
      match previous
      case None => Zero
      case Some(c) =>
        if orientation == Vertical then
          Vec2(c.position.x + c.size.x + c.margin.right - panelPosition.x - panelMargin.left, 0.0)
        else if orientation == Horizontal then
          Vec2(0.0, c.position.y + c.size.y + c.margin.bottom - panelPosition.y - panelMargin.top)
        else Zero;
    Vec2(own.x + panelPosition.x + offset.x + panelMargin.left,
         own.y + panelPosition.y + offset.y + panelMargin.top)
  }

  /**
    `Children[Children.IndexOf(control) - 1]` throws when the control just appended
    was already the first child.
   */
  predicate AddThrows<T(==)>(children: seq<T>, control: T): (r: bool)
    ensures var l := children + [control];
            r <==> |l| > 1 && IndexOf(l, control) - 1 < 0
  {
    |children| > 0 && children[0] == control
  }

  /**
    The sibling `Add` packs `control` after: the one before the control's first
    occurrence in the list once the control is appended; none for the first child.
   */
  function PreviousSibling(children: seq<Control>, control: Control): Option<Sibling>
    requires !AddThrows(children, control)
    reads children
  {
    if children == [] then None
    else
      var k := IndexOf(children + [control], control);
      assert k != 0;
      Some(Snapshot((children + [control])[k - 1]))
  }

  /** A control added for the first time is packed after the last child. */
  lemma PreviousOfNewIsLast(children: seq<Control>, control: Control)
    requires children != [] && control !in children
    ensures PreviousSibling(children, control) == Some(Snapshot(children[|children| - 1]))
  {
    IndexOfAppend(children, control);
  }

  /**
    The children list after `Add(List)`: each control is appended in turn, and the loop
    stops at the first `Add` that throws (after that control was appended).
   */
  function AppendUntilThrow<T(==)>(children: seq<T>, controls: seq<T>): seq<T>
    decreases |controls|
  {
    if controls == [] then children
    else if AddThrows(children, controls[0]) then children + [controls[0]]
    else AppendUntilThrow(children + [controls[0]], controls[1..])
  }

  /** `Add(List)` runs to the end without an exception. */
  predicate AddsCleanly<T(==)>(children: seq<T>, controls: seq<T>)
    decreases |controls|
  {
    controls == [] || (!AddThrows(children, controls[0]) && AddsCleanly(children + [controls[0]], controls[1..]))
  }

  /**
    `Add(List)` throws exactly when the list's first child comes again among the added
    controls; when it does not throw, every control is appended in order.
   */
  lemma {:induction false} AddsCleanlyIff<T>(children: seq<T>, controls: seq<T>)
    ensures AddsCleanly(children, controls) <==>
              if children != [] then children[0] !in controls
              else controls == [] || controls[0] !in controls[1..]
    ensures AddsCleanly(children, controls) ==> AppendUntilThrow(children, controls) == children + controls
    decreases |controls|
  {
    if controls != [] {
      var c := controls[0];
      AddsCleanlyIff(children + [c], controls[1..]);
      assert controls == [c] + controls[1..];
      assert (children + [c])[0] == if children != [] then children[0] else c;
      assert children + [c] + controls[1..] == children + controls;
    }
  }

  // ---------------------------------------------------------------------------
  // Removal

  /**
    What `Clear` leaves of `children` when its loop counter starts at `i`: each round
    removes (the first occurrence of) `Children[i]` and then advances `i`, while the
    list shrinks under it.
   */
  function ClearLoop<T(==)>(children: seq<T>, i: nat): (r: seq<T>)
    ensures |r| <= |children|
    ensures i < |children| ==> |r| < |children|
    ensures |children| <= i ==> r == children
    decreases |children| - i
  {
    if i < |children| then ClearLoop(RemoveFirst(children, children[i]), i + 1) else children
  }

  /** Every other element, starting from the second. */
  function OddPositions<T>(s: seq<T>): (r: seq<T>)
    ensures |r| == |s| / 2
  {
    seq(|s| / 2, j requires 0 <= j < |s| / 2 => s[2 * j + 1])
  }

  /** `Clear` leaves half of the children behind, rounded down. */
  lemma {:induction false} ClearLeavesHalf<T>(children: seq<T>, i: nat)
    requires i <= |children|
    ensures |ClearLoop(children, i)| == i + (|children| - i) / 2
    decreases |children| - i
  {
    if i < |children| {
      var rest := RemoveFirst(children, children[i]);
      assert |rest| == |children| - 1;
      assert ClearLoop(children, i) == ClearLoop(rest, i + 1);
      if i + 1 <= |rest| {
        ClearLeavesHalf(rest, i + 1);
        var m := |children| - i;
        assert (m - 2) / 2 + 1 == m / 2;
      } else {
        assert ClearLoop(rest, i + 1) == rest;
      }
    }
  }

  /** On distinct children `Clear` keeps exactly those at odd positions, in order. */
  lemma ClearKeepsOddPositions<T>(children: seq<T>)
    requires Distinct(children)
    ensures ClearLoop(children, 0) == OddPositions(children)
  {
    assert OddPositions(children[..0]) + children[0..] == children;
    ClearFrom(children, 0);
  }

  lemma {:induction false} ClearFrom<T>(o: seq<T>, k: nat)
    requires Distinct(o) && 2 * k <= |o|
    ensures ClearLoop(OddPositions(o[..2 * k]) + o[2 * k..], k) == OddPositions(o)
    decreases |o| - 2 * k
  {
    if 2 * k < |o| {
      var next := OddPositions(o[..2 * k]) + o[2 * k + 1..];
      ClearRound(o, k);
      if 2 * k + 2 <= |o| {
        NextRoundShape(o, k);
        ClearFrom(o, k + 1);
      } else {
        assert |next| == k;
        OddPositionsWhole(o, k);
        assert o[2 * k + 1..] == [];
      }
    } else {
      assert o[2 * k..] == [];
      OddPositionsWhole(o, k);
    }
  }

  /** Round `k` of `Clear` on distinct children removes the element at position `2k` of the original list. */
  lemma ClearRound<T>(o: seq<T>, k: nat)
    requires Distinct(o) && 2 * k < |o|
    ensures ClearLoop(OddPositions(o[..2 * k]) + o[2 * k..], k) == ClearLoop(OddPositions(o[..2 * k]) + o[2 * k + 1..], k + 1)
  {
    RemoveInRound(o, k);
    ClearLoopUnfold(OddPositions(o[..2 * k]) + o[2 * k..], k);
  }

  /** After round `k` the list has the shape round `k + 1` starts from. */
  lemma NextRoundShape<T>(o: seq<T>, k: nat)
    requires 2 * k + 2 <= |o|
    ensures OddPositions(o[..2 * k]) + o[2 * k + 1..] == OddPositions(o[..2 * (k + 1)]) + o[2 * (k + 1)..]
  {
    OddPositionsExtend(o, k);
    assert o[2 * k + 1..] == [o[2 * k + 1]] + o[2 * (k + 1)..];
  }

  lemma ClearLoopUnfold<T>(s: seq<T>, i: nat)
    requires i < |s|
    ensures ClearLoop(s, i) == ClearLoop(RemoveFirst(s, s[i]), i + 1)
  {
  }

  lemma RemoveInRound<T>(o: seq<T>, k: nat)
    requires Distinct(o) && 2 * k < |o|
    ensures var cur := OddPositions(o[..2 * k]) + o[2 * k..];
            k < |cur| && RemoveFirst(cur, cur[k]) == OddPositions(o[..2 * k]) + o[2 * k + 1..]
  {
    var done := OddPositions(o[..2 * k]);
    var cur := done + o[2 * k..];
    var x := o[2 * k];
    assert cur[k] == x;
    assert x !in done by {
      forall j | 0 <= j < k ensures done[j] != x {
        assert done[j] == o[2 * j + 1];
      }
    }
    assert cur[..k] == done;
    IndexOfAt(cur, x, k);
    assert cur[k + 1..] == o[2 * k + 1..];
  }

  lemma OddPositionsExtend<T>(o: seq<T>, k: nat)
    requires 2 * k + 2 <= |o|
    ensures OddPositions(o[..2 * (k + 1)]) == OddPositions(o[..2 * k]) + [o[2 * k + 1]]
  {
  }

  lemma OddPositionsWhole<T>(o: seq<T>, k: nat)
    requires 2 * k <= |o| <= 2 * k + 1
    ensures OddPositions(o[..2 * k]) == OddPositions(o)
  {
  }

  /** The smallest case of the discrepancy: two distinct children, one survives. */
  lemma ClearOfTwoKeepsSecond<T>(a: T, b: T)
    requires a != b
    ensures ClearLoop([a, b], 0) == [b]
  {
    assert RemoveFirst([a, b], a) == [b];
  }

  // ---------------------------------------------------------------------------
  // Hit test

  /**
    The hover test of `Render`: the pointer lies strictly inside the panel's rectangle
    scaled by `scale` about its centre and shifted by the left and top margins.
   */
  predicate Hovered(position: Vec2, size: Vec2, scale: Vec2, margin: Margin, pointer: Vec2) {
    && pointer.x > position.x - size.x * (scale.x - 1.0) / 2.0 + margin.left
    && pointer.x < position.x - size.x * (scale.x - 1.0) / 2.0 + size.x * scale.x + margin.left
    && pointer.y > position.y - size.y * (scale.y - 1.0) / 2.0 + margin.top
    && pointer.y < position.y - size.y * (scale.y - 1.0) / 2.0 + size.y * scale.y + margin.top
  }

  function Abs(v: real): real { if v < 0.0 then -v else v }

  /** The open box of the given extent centred on `centre`. */
  predicate InBox(centre: Vec2, extent: Vec2, pointer: Vec2) {
    2.0 * Abs(pointer.x - centre.x) < extent.x && 2.0 * Abs(pointer.y - centre.y) < extent.y
  }

  /**
    The hover rectangle is the `size * scale` box around the centre of the unscaled,
    margin-shifted footprint; scaling never moves that centre.
   */
  lemma HoveredIffInScaledBox(position: Vec2, size: Vec2, scale: Vec2, margin: Margin, pointer: Vec2)
    ensures Hovered(position, size, scale, margin, pointer) <==>
              InBox(Vec2(position.x + margin.left + size.x / 2.0, position.y + margin.top + size.y / 2.0),
                    Vec2(size.x * scale.x, size.y * scale.y), pointer)
  {
    assert size.x * (scale.x - 1.0) == size.x * scale.x - size.x;
    assert size.y * (scale.y - 1.0) == size.y * scale.y - size.y;
  }

  /** A panel whose scaled width or height is not positive is never hovered; a zero-size panel in particular. */
  lemma FlatPanelNeverHovered(position: Vec2, size: Vec2, scale: Vec2, margin: Margin, pointer: Vec2)
    requires size.x * scale.x <= 0.0 || size.y * scale.y <= 0.0
    ensures !Hovered(position, size, scale, margin, pointer)
  {
    HoveredIffInScaledBox(position, size, scale, margin, pointer);
  }

  // ---------------------------------------------------------------------------
  // Transitions

  /** One colour channel of `TransitionTo`: `(byte)float.Lerp(from, to, t)`. */
  function ChannelLerp(from: byte, to: byte, t: real): (r: byte)
    ensures t == 0.0 ==> r == from
    ensures t == 1.0 ==> r == to
    ensures 0.0 <= t <= 1.0 ==> Between(from as real, r as real, to as real)
  {
    var v := Lerp(from as real, to as real, t);
    if 0.0 <= t <= 1.0 then ByteCastBetween(from, v, to); ByteCast(v) else ByteCast(v)
  }

  /**
    Truncation makes an upward channel stall: it stays put exactly when the step
    `(to - from) * t` is below one, so it can stop short of its target for good.
   */
  lemma ChannelStallsBelowTarget(from: byte, to: byte, t: real)
    requires from < to && 0.0 <= t <= 1.0
    ensures ChannelLerp(from, to, t) == from <==> (to - from) as real * t < 1.0
  {
    var v := Lerp(from as real, to as real, t);
    assert v == from as real + (to - from) as real * t;
    MulBounds((to - from) as real, t);
    assert 0.0 <= v < 256.0;
  }

  /** A downward channel moves at least one step and never passes its target. */
  lemma ChannelFallsTowardTarget(from: byte, to: byte, t: real)
    requires to < from && 0.0 < t <= 1.0
    ensures to <= ChannelLerp(from, to, t) < from
  {
    var v := Lerp(from as real, to as real, t);
    var d := (from - to) as real;
    assert v == from as real - d * t;
    assert d * t > 0.0;
    MulBounds(d, t);
    assert 0.0 <= v < 256.0;
  }

  /** `n` successive channel transitions toward `to`. */
  function ChannelSteps(from: byte, to: byte, t: real, n: nat): byte
    decreases n
  {
    if n == 0 then from else ChannelSteps(ChannelLerp(from, to, t), to, t, n - 1)
  }

  /** A channel at or above its target reaches it within `from - to` frames. */
  lemma {:induction false} ChannelReachesLowerTarget(from: byte, to: byte, t: real, n: nat)
    requires to <= from && 0.0 < t <= 1.0 && n >= (from - to) as int
    ensures ChannelSteps(from, to, t, n) == to
    decreases n
  {
    if n > 0 {
      var next := ChannelLerp(from, to, t);
      if from == to {
        assert Lerp(from as real, to as real, t) == from as real;
        assert next == to;
      } else {
        ChannelFallsTowardTarget(from, to, t);
      }
      ChannelReachesLowerTarget(next, to, t, n - 1);
    }
  }

  /** `TransitionTo(MuekColor, t)` with animation on: every channel interpolated and truncated on its own. */
  function ColorLerp(from: MuekColor, to: MuekColor, t: real): (r: MuekColor)
    ensures t == 0.0 ==> r == from
    ensures t == 1.0 ==> r == to
    ensures 0.0 <= t <= 1.0 ==>
              && Between(from.red as real, r.red as real, to.red as real)
              && Between(from.green as real, r.green as real, to.green as real)
              && Between(from.blue as real, r.blue as real, to.blue as real)
              && Between(from.alpha as real, r.alpha as real, to.alpha as real)
  {
    MuekColor(ChannelLerp(from.red, to.red, t), ChannelLerp(from.green, to.green, t),
              ChannelLerp(from.blue, to.blue, t), ChannelLerp(from.alpha, to.alpha, t))
  }

  /**
    The new `RenderColor` of `TransitionTo(target, speed)`: the target itself when
    animation is disabled, otherwise a step toward it that never overshoots.
   */
  function ColorTransition(animationDisabled: bool, from: MuekColor, to: MuekColor, speed: real): (r: MuekColor)
    ensures animationDisabled || speed == 1.0 ==> r == to
    ensures !animationDisabled && speed == 0.0 ==> r == from
    ensures !animationDisabled && 0.0 <= speed <= 1.0 ==>
              && Between(from.red as real, r.red as real, to.red as real)
              && Between(from.green as real, r.green as real, to.green as real)
              && Between(from.blue as real, r.blue as real, to.blue as real)
              && Between(from.alpha as real, r.alpha as real, to.alpha as real)
  {
    if !animationDisabled then ColorLerp(from, to, speed) else to
  }

  /**
    The new `Scale` of `TransitionTo(target, speed)`: the target when animation is
    disabled, otherwise `Vector2.Lerp`, whose distance to the target shrinks by `1 - speed`.
   */
  function ScaleTransition(animationDisabled: bool, from: Vec2, to: Vec2, speed: real): (r: Vec2)
    ensures animationDisabled || speed == 1.0 ==> r == to
    ensures !animationDisabled ==> r.x - to.x == (from.x - to.x) * (1.0 - speed) && r.y - to.y == (from.y - to.y) * (1.0 - speed)
    ensures !animationDisabled && 0.0 <= speed <= 1.0 ==> Between(from.x, r.x, to.x) && Between(from.y, r.y, to.y)
  {
    if !animationDisabled then VecLerp(from, to, speed) else to
  }

  // ---------------------------------------------------------------------------
  // The panel

  class Panel {
    var position: Vec2
    var size: Vec2
    var scale: Vec2
    var margin: Margin
    var orientation: Orientation
    var color: MuekColor
    var renderColor: MuekColor
    var hoverColor: MuekColor
    var borderColor: MuekColor
    var borderRadius: Vec2
    var borderThickness: real
    var opacity: int
    var renderLayer: int
    var animationSpeed: real
    var hoverScale: Vec2
    var isAnimationDisabled: bool
    var children: seq<Control>
    var isHovering: bool
    var isPressed: bool

    /** A panel is promoted to render layer 1 exactly while it is hovered. */
    ghost predicate Valid()
      reads this
    {
      renderLayer == if isHovering then 1 else 0
    }

    constructor (color: MuekColor, width: int, height: int, x: int := 0, y: int := 0)
      ensures Valid()
      ensures size == Vec2(width as real, height as real) && position == Vec2(x as real, y as real)
      ensures this.color == color && hoverColor == color && renderColor == color
      ensures scale == One && hoverScale == One && margin == DefaultMargin && orientation == Vertical
      ensures borderColor == Transparent && borderRadius == Zero && borderThickness == 0.0
      ensures opacity == 255 && renderLayer == 0 && animationSpeed == 0.05 && isAnimationDisabled
      ensures children == [] && !isHovering && !isPressed
    {
      size := Vec2(width as real, height as real);
      position := Vec2(x as real, y as real);
      this.color := color;
      hoverColor := color;
      renderColor := color;
      scale := One;
      hoverScale := One;
      margin := DefaultMargin;
      orientation := Vertical;
      borderColor := Transparent;
      borderRadius := Zero;
      borderThickness := 0.0;
      opacity := 255;
      renderLayer := 0;
      animationSpeed := 0.05;
      isAnimationDisabled := true;
      children := [];
      isHovering := false;
      isPressed := false;
    }

    /** The hit test `Render` runs against the pointer position. */
    predicate PointerInside(pointer: Vec2)
      reads this
    {
      Hovered(position, size, scale, margin, pointer)
    }

    /** `TransitionTo(Vector2 targetScale, float animationSpeed = .5f)`. */
    method TransitionToScale(target: Vec2, speed: real := 0.5)
      modifies this`scale
      ensures scale == ScaleTransition(isAnimationDisabled, old(scale), target, speed)
    {
      scale := if !isAnimationDisabled then VecLerp(scale, target, speed) else target;
    }

    /** `TransitionTo(MuekColor targetColor, float animationSpeed = .5f)`. */
    method TransitionToColor(target: MuekColor, speed: real := 0.5)
      modifies this`renderColor
      ensures renderColor == ColorTransition(isAnimationDisabled, old(renderColor), target, speed)
    {
      if !isAnimationDisabled {
        renderColor := MuekColor(ChannelLerp(renderColor.red, target.red, speed),
                                 ChannelLerp(renderColor.green, target.green, speed),
                                 ChannelLerp(renderColor.blue, target.blue, speed),
                                 ChannelLerp(renderColor.alpha, target.alpha, speed));
      } else {
        renderColor := target;
      }
    }

    /** Pointer over the panel: hovered, promoted, and moving toward the hover colour and scale. */
    method OnHover()
      modifies this`isHovering, this`renderLayer, this`renderColor, this`scale
      ensures Valid() && isHovering && renderLayer == 1
      ensures renderColor == ColorTransition(isAnimationDisabled, old(renderColor), hoverColor, animationSpeed)
      ensures scale == ScaleTransition(isAnimationDisabled, old(scale), hoverScale, animationSpeed)
    {
      isHovering := true;
      renderLayer := 1;
      TransitionToColor(hoverColor, animationSpeed);
      TransitionToScale(hoverScale, animationSpeed);
    }

    /** Pointer off the panel: not hovered, layer 0, and moving back to the base colour and unit scale. */
    method OnLeave()
      modifies this`isHovering, this`renderLayer, this`renderColor, this`scale
      ensures Valid() && !isHovering && renderLayer == 0
      ensures renderColor == ColorTransition(isAnimationDisabled, old(renderColor), color, animationSpeed)
      ensures scale == ScaleTransition(isAnimationDisabled, old(scale), One, animationSpeed)
    {
      isHovering := false;
      renderLayer := 0;
      TransitionToColor(color, animationSpeed);
      TransitionToScale(One, animationSpeed);
    }

    method OnPointerClicked()
      modifies this`isPressed
      ensures isPressed
    {
      isPressed := true;
    }

    method OnPointerReleased()
      modifies this`isPressed
      ensures !isPressed
    {
      isPressed := false;
    }

    /**
      The state changes of one `Render` pass: the hover test against the pointer, then
      `OnHover` or `OnLeave`. (The base `OnPointerPressed` that follows does nothing.)
     */
    method Render(pointer: Vec2)
      modifies this`isHovering, this`renderLayer, this`renderColor, this`scale
      ensures Valid()
      ensures isHovering == old(PointerInside(pointer))
      ensures renderColor == ColorTransition(isAnimationDisabled, old(renderColor), if isHovering then hoverColor else color, animationSpeed)
      ensures scale == ScaleTransition(isAnimationDisabled, old(scale), if isHovering then hoverScale else One, animationSpeed)
    {
      if PointerInside(pointer) {
        OnHover();
      } else {
        OnLeave();
      }
    }

    /**
      The flag changes of `Input`: a pointer-down presses a hovered panel, a pointer-up
      releases a pressed one, and any other event leaves the flag alone.
     */
    method Input(e: InputEvent)
      modifies this`isPressed
      ensures e.PointerDown? ==> isPressed == (old(isPressed) || isHovering)
      ensures e.PointerUp? ==> !isPressed
      ensures !e.PointerDown? && !e.PointerUp? ==> isPressed == old(isPressed)
    {
      if e.PointerDown? {
        if isHovering {
          OnPointerClicked();
        }
      }
      if e.PointerUp? {
        if isPressed {
          OnPointerReleased();
        }
      }
    }

    /**
      `Add(IControl)`: appends the control and repositions it after its previous
      sibling. When the control was already the first child the sibling lookup throws
      (`ok` is false) after the append, with the position untouched.
     */
    method Add(control: Control) returns (ok: bool)
      modifies this`children, control`position
      ensures children == old(children) + [control]
      ensures ok == !AddThrows(old(children), control)
      ensures !ok ==> control.position == old(control.position)
      ensures ok ==> control.position == PackedPosition(old(control.position), position, margin, orientation,
                                                       old(PreviousSibling(children, control)))
    {
      children := children + [control];
      var offset := Zero;
      if |children| > 1 {
        var k := IndexOf(children, control);
        if k - 1 < 0 {
          // Children[-1]: ArgumentOutOfRangeException
          return false;
        }
        var c := children[k - 1];
        if orientation == Vertical {
          offset := Vec2(c.position.x + c.size.x + c.margin.right - position.x - margin.left, 0.0);
        }
        if orientation == Horizontal {
          offset := Vec2(0.0, c.position.y + c.size.y + c.margin.bottom - position.y - margin.top);
        }
      }
      control.position := Vec2(control.position.x + position.x + offset.x + margin.left,
                               control.position.y + position.y + offset.y + margin.top);
      ok := true;
    }

    /** `Add(List<IControl>)`: `Add` for each control in order, until one throws. */
    method AddAll(controls: seq<Control>) returns (ok: bool)
      modifies this`children, controls`position
      ensures children == AppendUntilThrow(old(children), controls)
      ensures ok == AddsCleanly(old(children), controls)
    {
      var i := 0;
      while i < |controls|
        invariant 0 <= i <= |controls|
        invariant AppendUntilThrow(children, controls[i..]) == AppendUntilThrow(old(children), controls)
        invariant AddsCleanly(children, controls[i..]) == AddsCleanly(old(children), controls)
      {
        assert controls[i..][1..] == controls[i + 1..];
        ok := Add(controls[i]);
        if !ok {
          return;
        }
        i := i + 1;
      }
      ok := true;
    }

    /** `Remove`: drops the first occurrence of the control from the children. */
    method Remove(control: Control)
      modifies this`children
      ensures children == RemoveFirst(old(children), control)
    {
      children := RemoveFirst(children, control);
    }

    /** `Clear`, as written: an index loop over a list that `Remove` shrinks. */
    method Clear()
      modifies this`children
      ensures children == ClearLoop(old(children), 0)
    {
      var i := 0;
      while i < |children|
        invariant ClearLoop(children, i) == ClearLoop(old(children), 0)
        decreases |children| - i
      {
        Remove(children[i]);
        i := i + 1;
      }
    }

    /** `Clear` as evidently intended: remove children until none is left. */
    method ClearIntended()
      modifies this`children
      ensures children == []
    {
      while children != []
        decreases |children|
      {
        Remove(children[0]);
      }
    }
  }
}
