/**
  `ScrollBar`: the same scroll state as `ScrollPanel`, with the children-extent loop
  written inline in its alignment hook and an early exit for a missing children list.
 */
module ScrollBars {
  import opened Numerics
  import opened Muek
  import opened Wrappers
  import opened Panels
  import opened ScrollPanels

  /**
    The `ScrollBar` alignment hook. A missing (`null`) children list short-circuits to
    the zero vector and touches neither percentage; otherwise the hook is the scroll
    panel's, over the extent of the children.
   */
  function BarAlignHook(offset: Vec2, index: int, children: Option<seq<Footprint>>, orientation: Orientation,
                        size: Vec2, scrollX: real, scrollY: real): (a: Aligned)
    ensures children.None? ==> a.offset == Zero && a.scrollX == scrollX && a.scrollY == scrollY
    ensures children.Some? && index != 0 ==> a.offset == offset
    ensures children.Some? ==>
              a.scrollX == (if Extent(children.value, orientation).x < size.x then 0.0 else scrollX) &&
              a.scrollY == (if Extent(children.value, orientation).y < size.y then 0.0 else scrollY)
  {
    match children
    case None => Aligned(Zero, scrollX, scrollY)
    case Some(fs) => AlignHook(offset, index, Extent(fs, orientation), size, scrollX, scrollY)
  }

  /**
    With a children list present, the first child's shift obeys the scroll panel's
    bounds: between 0 and the overflow on each axis, and 0 where nothing overflows.
   */
  lemma BarShiftBounded(offset: Vec2, fs: seq<Footprint>, orientation: Orientation, size: Vec2,
                        scrollX: real, scrollY: real)
    requires 0.0 <= scrollX <= 100.0 && 0.0 <= scrollY <= 100.0
    ensures var a := BarAlignHook(offset, 0, Some(fs), orientation, size, scrollX, scrollY);
            var e := Extent(fs, orientation);
            && 0.0 <= offset.x - a.offset.x <= Max(0.0, e.x - size.x)
            && 0.0 <= offset.y - a.offset.y <= Max(0.0, e.y - size.y)
  {
    AlignShiftBounded(offset, Extent(fs, orientation), size, scrollX, scrollY);
  }

  /**
    Without a children list every index gets the zero vector: a non-zero offset given
    to any child other than the first is lost, unlike with a list present.
   */
  lemma NullChildrenDropOffset(offset: Vec2, index: int, orientation: Orientation, size: Vec2,
                               scrollX: real, scrollY: real)
    requires index != 0 && offset != Zero
    ensures BarAlignHook(offset, index, None, orientation, size, scrollX, scrollY).offset !=
            BarAlignHook(offset, index, Some([]), orientation, size, scrollX, scrollY).offset
  {
  }

  class ScrollBar {
    const panel: Panel
    var scrollX: real
    var scrollY: real
    var scrollSpeedX: real
    var scrollSpeedY: real

    /** The clamping setters keep both percentages in [0,100]. */
    ghost predicate Valid()
      reads this, panel
    {
      panel.Valid() && 0.0 <= scrollX <= 100.0 && 0.0 <= scrollY <= 100.0
    }

    /** `ScrollBar(color, width, height, x, y)`: a panel laid out `Vertical`, not scrolled, speed 10. */
    constructor (color: MuekColor, width: int, height: int, x: int := 0, y: int := 0)
      ensures Valid() && fresh(panel)
      ensures panel.color == color && panel.size == Vec2(width as real, height as real)
      ensures panel.position == Vec2(x as real, y as real) && panel.orientation == Vertical
      ensures panel.children == [] && !panel.isHovering && !panel.isPressed
      ensures panel.renderColor == color && panel.hoverColor == color
      ensures panel.scale == One && panel.hoverScale == One && panel.margin == DefaultMargin
      ensures panel.borderColor == Muek.Transparent && panel.borderRadius == Zero && panel.borderThickness == 0.0
      ensures panel.opacity == 255 && panel.renderLayer == 0 && panel.animationSpeed == 0.05 && panel.isAnimationDisabled
      ensures scrollX == 0.0 && scrollY == 0.0 && scrollSpeedX == 10.0 && scrollSpeedY == 10.0
    {
      var p := new Panel(color, width, height, x, y);
      p.orientation := Vertical;
      panel := p;
      scrollX := 0.0;
      scrollY := 0.0;
      scrollSpeedX := 10.0;
      scrollSpeedY := 10.0;
    }

    /** `ScrollBar(width, height, x, y)`: the same on a transparent panel. */
    constructor Transparent(width: int, height: int, x: int := 0, y: int := 0)
      ensures Valid() && fresh(panel)
      ensures panel.color == Muek.Transparent && panel.size == Vec2(width as real, height as real)
      ensures panel.position == Vec2(x as real, y as real) && panel.orientation == Vertical
      ensures panel.children == [] && !panel.isHovering && !panel.isPressed
      ensures panel.renderColor == Muek.Transparent && panel.hoverColor == Muek.Transparent
      ensures panel.scale == One && panel.hoverScale == One && panel.margin == DefaultMargin
      ensures panel.borderColor == Muek.Transparent && panel.borderRadius == Zero && panel.borderThickness == 0.0
      ensures panel.opacity == 255 && panel.renderLayer == 0 && panel.animationSpeed == 0.05 && panel.isAnimationDisabled
      ensures scrollX == 0.0 && scrollY == 0.0 && scrollSpeedX == 10.0 && scrollSpeedY == 10.0
    {
      var p := new Panel(Muek.Transparent, width, height, x, y);
      p.orientation := Vertical;
      panel := p;
      scrollX := 0.0;
      scrollY := 0.0;
      scrollSpeedX := 10.0;
      scrollSpeedY := 10.0;
    }

    /** The `ScrollX` setter. */
    method SetScrollX(v: real)
      modifies this`scrollX
      ensures scrollX == Clamp(v, 0.0, 100.0)
      ensures 0.0 <= scrollX <= 100.0
    {
      scrollX := Clamp(v, 0.0, 100.0);
    }

    /** The `ScrollY` setter. */
    method SetScrollY(v: real)
      modifies this`scrollY
      ensures scrollY == Clamp(v, 0.0, 100.0)
      ensures 0.0 <= scrollY <= 100.0
    {
      scrollY := Clamp(v, 0.0, 100.0);
    }

    /** The wheel handler the constructor subscribes to `OnInput`. */
    method OnWheel(e: InputEvent)
      requires Valid()
      modifies this`scrollX, this`scrollY
      ensures Valid()
      ensures scrollY == WheelScrollY(old(scrollY), e, scrollSpeedY)
      ensures scrollX == WheelScrollX(old(scrollX), e, scrollSpeedX)
    {
      if e.Wheel? {
        WheelY(e.deltaY);
        WheelX(e.deltaX);
      }
    }

    /** The two vertical branches of the wheel handler. */
    method WheelY(deltaY: real)
      modifies this`scrollY
      ensures scrollY == WheelScrollY(old(scrollY), Wheel(0.0, deltaY), scrollSpeedY)
    {
      if deltaY > 0.0 {
        SetScrollY(scrollY - deltaY * scrollSpeedY);
      }
      if deltaY < 0.0 {
        SetScrollY(scrollY - deltaY * scrollSpeedY);
      }
    }

    /** The two horizontal branches of the wheel handler. */
    method WheelX(deltaX: real)
      modifies this`scrollX
      ensures scrollX == WheelScrollX(old(scrollX), Wheel(deltaX, 0.0), scrollSpeedX)
    {
      if deltaX > 0.0 {
        SetScrollX(scrollX + deltaX * scrollSpeedX);
      }
      if deltaX < 0.0 {
        SetScrollX(scrollX + deltaX * scrollSpeedX);
      }
    }

    /** `Input`: the panel's press/release handling, then the wheel handler. */
    method Input(e: InputEvent)
      requires Valid()
      modifies panel`isPressed, this`scrollX, this`scrollY
      ensures Valid()
      ensures e.PointerDown? ==> panel.isPressed == (old(panel.isPressed) || panel.isHovering)
      ensures e.PointerUp? ==> !panel.isPressed
      ensures !e.PointerDown? && !e.PointerUp? ==> panel.isPressed == old(panel.isPressed)
      ensures scrollY == WheelScrollY(old(scrollY), e, scrollSpeedY)
      ensures scrollX == WheelScrollX(old(scrollX), e, scrollSpeedX)
    {
      panel.Input(e);
      OnWheel(e);
    }

    /**
      The `OnAlign` hook, with the children's extent accumulated inline. The children
      list of this model is never missing, so the hook always takes the list branch.
     */
    method Align(offset: Vec2, index: int) returns (r: Vec2)
      requires Valid()
      modifies this`scrollX, this`scrollY
      ensures Valid()
      ensures var a := BarAlignHook(offset, index, Some(FootprintsOf(panel.children)), panel.orientation,
                                    panel.size, old(scrollX), old(scrollY));
              r == a.offset && scrollX == a.scrollX && scrollY == a.scrollY
    {
      var cs := panel.children;
      var childrenSize := Zero;
      for i := 0 to |cs|
        invariant childrenSize == Extent(FootprintsOf(cs[..i]), panel.orientation)
        invariant scrollX == old(scrollX) && scrollY == old(scrollY)
      {
        var child := cs[i];
        if panel.orientation == Horizontal {
          childrenSize := Vec2(childrenSize.x + child.size.x, childrenSize.y);
        } else if panel.orientation == Vertical {
          childrenSize := Vec2(childrenSize.x, childrenSize.y + child.size.y);
        }
        childrenSize := Vec2(childrenSize.x + child.margin.left + child.margin.right,
                             childrenSize.y + child.margin.top + child.margin.bottom);
        assert cs[..i + 1][..i] == cs[..i];
        ExtentAppend(FootprintsOf(cs[..i]), Footprint(child.size, child.margin), panel.orientation);
      }
      assert cs[..|cs|] == cs;
      r := ApplyExtent(offset, index, childrenSize);
    }

    /**
      The rest of the `OnAlign` hook once the children's extent is known: the forced
      scroll resets through the setters, then the shift of the first child.
     */
    method ApplyExtent(offset: Vec2, index: int, childrenSize: Vec2) returns (r: Vec2)
      requires Valid()
      modifies this`scrollX, this`scrollY
      ensures Valid()
      ensures var a := AlignHook(offset, index, childrenSize, panel.size, old(scrollX), old(scrollY));
              r == a.offset && scrollX == a.scrollX && scrollY == a.scrollY
    {
      ghost var a := AlignHook(offset, index, childrenSize, panel.size, scrollX, scrollY);
      if childrenSize.x < panel.size.x {
        SetScrollX(0.0);
      }
      if childrenSize.y < panel.size.y {
        SetScrollY(0.0);
      }
      var offsetX := (childrenSize.x - panel.size.x) * scrollX / 100.0;
      var offsetY := (childrenSize.y - panel.size.y) * scrollY / 100.0;
      assert Vec2(offsetX, offsetY) == Shift(childrenSize, panel.size, scrollX, scrollY);
      assert scrollX == a.scrollX && scrollY == a.scrollY;
      r := offset;
      if index == 0 {
        r := r.Minus(Vec2(offsetX, offsetY));
      }
      assert r == a.offset;
    }
  }
}
