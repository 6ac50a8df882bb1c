/**
  `ScrollPanel`: a panel with two scroll percentages kept in [0,100], a wheel handler
  that moves them, the extent of its children, and the alignment hook that shifts the
  first child by the scrolled number of pixels.
 */
module ScrollPanels {
  import opened Numerics
  import opened Muek
  import opened Panels

  /** What the extent sum reads of a child: its size and its margin. */
  datatype Footprint = Footprint(size: Vec2, margin: Margin)

  /** The footprints of the children, in order. */
  function FootprintsOf(cs: seq<Control>): (fs: seq<Footprint>)
    reads cs
    ensures |fs| == |cs|
    ensures forall k :: 0 <= k < |cs| ==> fs[k] == Footprint(cs[k].size, cs[k].margin)
  {
    if cs == [] then []
    else FootprintsOf(cs[..|cs| - 1]) + [Footprint(cs[|cs| - 1].size, cs[|cs| - 1].margin)]
  }

  /**
    What one child adds to the extent: its width under `Horizontal`, its height under
    `Vertical` (nothing for an undeclared orientation), and its margins on both axes.
   */
  function Contribution(f: Footprint, o: Orientation): Vec2 {
    Vec2((if o == Horizontal then f.size.x else 0.0) + f.margin.left + f.margin.right,
         (if o == Vertical then f.size.y else 0.0) + f.margin.top + f.margin.bottom)
  }

  /** Every size and margin component is non-negative. */
  predicate NonNegative(f: Footprint) {
    f.size.x >= 0.0 && f.size.y >= 0.0 &&
    f.margin.left >= 0.0 && f.margin.top >= 0.0 && f.margin.right >= 0.0 && f.margin.bottom >= 0.0
  }

  /** The sum `GetChildrenSize` accumulates, child by child from the first. */
  function Extent(fs: seq<Footprint>, o: Orientation): Vec2 {
    if fs == [] then Zero
    else Contribution(fs[0], o).Plus(Extent(fs[1..], o))
  }

  /**
    Children with non-negative sizes and margins give a non-negative extent that
    collects at least their margins on each axis.
   */
  lemma {:induction false} ExtentNonNegative(fs: seq<Footprint>, o: Orientation)
    requires forall k :: 0 <= k < |fs| ==> NonNegative(fs[k])
    ensures Extent(fs, o).x >= MarginsX(fs) >= 0.0 && Extent(fs, o).y >= MarginsY(fs) >= 0.0
  {
    if fs != [] {
      assert NonNegative(fs[0]);
      ExtentNonNegative(fs[1..], o);
    }
  }

  /** The left and right margins of all children. */
  function MarginsX(fs: seq<Footprint>): real {
    if fs == [] then 0.0 else fs[0].margin.left + fs[0].margin.right + MarginsX(fs[1..])
  }

  /** The top and bottom margins of all children. */
  function MarginsY(fs: seq<Footprint>): real {
    if fs == [] then 0.0 else fs[0].margin.top + fs[0].margin.bottom + MarginsY(fs[1..])
  }

  /** The widths of all children. */
  function Widths(fs: seq<Footprint>): real {
    if fs == [] then 0.0 else fs[0].size.x + Widths(fs[1..])
  }

  /** The heights of all children. */
  function Heights(fs: seq<Footprint>): real {
    if fs == [] then 0.0 else fs[0].size.y + Heights(fs[1..])
  }

  /**
    The extent in closed form: under `Vertical` the heights are summed along Y and the
    widths are ignored, under `Horizontal` the widths along X and the heights ignored,
    and an undeclared orientation contributes margins only.
   */
  lemma {:induction false} ExtentClosedForm(fs: seq<Footprint>, o: Orientation)
    ensures Extent(fs, o).x == MarginsX(fs) + (if o == Horizontal then Widths(fs) else 0.0)
    ensures Extent(fs, o).y == MarginsY(fs) + (if o == Vertical then Heights(fs) else 0.0)
  {
    if fs != [] {
      ExtentClosedForm(fs[1..], o);
    }
  }

  /** Appending a child adds its contribution: the step of the accumulating loop. */
  lemma {:induction false} ExtentAppend(fs: seq<Footprint>, f: Footprint, o: Orientation)
    ensures Extent(fs + [f], o) == Extent(fs, o).Plus(Contribution(f, o))
  {
    if fs != [] {
      assert (fs + [f])[1..] == fs[1..] + [f];
      ExtentAppend(fs[1..], f, o);
    }
  }

  /** The extent does not depend on the order of the children. */
  lemma {:induction false} ExtentSwap(fs: seq<Footprint>, gs: seq<Footprint>, o: Orientation)
    ensures Extent(fs + gs, o) == Extent(gs + fs, o)
  {
    ExtentConcat(fs, gs, o);
    ExtentConcat(gs, fs, o);
  }

  lemma {:induction false} ExtentConcat(fs: seq<Footprint>, gs: seq<Footprint>, o: Orientation)
    ensures Extent(fs + gs, o) == Extent(fs, o).Plus(Extent(gs, o))
  {
    if fs == [] {
      assert fs + gs == gs;
    } else {
      assert (fs + gs)[0] == fs[0];
      assert (fs + gs)[1..] == fs[1..] + gs;
      ExtentConcat(fs[1..], gs, o);
      var c, e1, e2 := Contribution(fs[0], o), Extent(fs[1..], o), Extent(gs, o);
      assert Extent(fs + gs, o) == c.Plus(e1.Plus(e2));
      assert Extent(fs, o) == c.Plus(e1);
    }
  }

  // ---------------------------------------------------------------------------
  // The wheel handler

  /**
    The `ScrollY` update of the wheel handler: two guarded `-=` through the clamping
    setter, one for a positive and one for a negative delta. Together they subtract
    `deltaY * speed` once for any non-zero delta, and change nothing for a zero delta
    or another kind of event.
   */
  function WheelScrollY(scrollY: real, e: InputEvent, speed: real): (r: real)
    ensures !e.Wheel? || e.deltaY == 0.0 ==> r == scrollY
    ensures e.Wheel? && e.deltaY != 0.0 ==> r == Clamp(scrollY - e.deltaY * speed, 0.0, 100.0)
    ensures 0.0 <= scrollY <= 100.0 ==> 0.0 <= r <= 100.0
  {
    if e.Wheel? then
      var y := if e.deltaY > 0.0 then Clamp(scrollY - e.deltaY * speed, 0.0, 100.0) else scrollY;
      if e.deltaY < 0.0 then Clamp(y - e.deltaY * speed, 0.0, 100.0) else y
    else scrollY
  }

  /** The `ScrollX` update: the same two guards, adding `deltaX * speed`. */
  function WheelScrollX(scrollX: real, e: InputEvent, speed: real): (r: real)
    ensures !e.Wheel? || e.deltaX == 0.0 ==> r == scrollX
    ensures e.Wheel? && e.deltaX != 0.0 ==> r == Clamp(scrollX + e.deltaX * speed, 0.0, 100.0)
    ensures 0.0 <= scrollX <= 100.0 ==> 0.0 <= r <= 100.0
  {
    if e.Wheel? then
      var x := if e.deltaX > 0.0 then Clamp(scrollX + e.deltaX * speed, 0.0, 100.0) else scrollX;
      if e.deltaX < 0.0 then Clamp(x + e.deltaX * speed, 0.0, 100.0) else x
    else scrollX
  }

  /**
    Direction of the wheel: at a non-negative speed, turning up (positive Y) never
    increases `ScrollY`, and turning right (positive X) never decreases `ScrollX`.
   */
  lemma WheelDirection(scrollX: real, scrollY: real, e: InputEvent, speedX: real, speedY: real)
    requires e.Wheel? && speedX >= 0.0 && speedY >= 0.0
    requires 0.0 <= scrollX <= 100.0 && 0.0 <= scrollY <= 100.0
    ensures e.deltaY >= 0.0 ==> WheelScrollY(scrollY, e, speedY) <= scrollY
    ensures e.deltaX >= 0.0 ==> WheelScrollX(scrollX, e, speedX) >= scrollX
  {
    assert e.deltaY >= 0.0 ==> e.deltaY * speedY >= 0.0;
    assert e.deltaX >= 0.0 ==> e.deltaX * speedX >= 0.0;
  }

  // ---------------------------------------------------------------------------
  // The alignment hook

  /** The hook's result together with the scroll percentages it leaves behind. */
  datatype Aligned = Aligned(offset: Vec2, scrollX: real, scrollY: real)

  /**
    The `OnAlign` hook for children extent `extent`. An axis whose content is smaller
    than the panel has its scroll forced to 0; the first child (index 0) is then moved
    back by `(extent - size) * scroll / 100` on each axis, and every other child keeps
    its offset.
   */
  function AlignHook(offset: Vec2, index: int, extent: Vec2, size: Vec2, scrollX: real, scrollY: real): (a: Aligned)
    ensures a.scrollX == (if extent.x < size.x then 0.0 else scrollX)
    ensures a.scrollY == (if extent.y < size.y then 0.0 else scrollY)
    ensures index != 0 ==> a.offset == offset
    ensures index == 0 ==> a.offset == offset.Minus(Shift(extent, size, a.scrollX, a.scrollY))
  {
    var sx := if extent.x < size.x then Clamp(0.0, 0.0, 100.0) else scrollX;
    var sy := if extent.y < size.y then Clamp(0.0, 0.0, 100.0) else scrollY;
    Aligned(if index == 0 then offset.Minus(Shift(extent, size, sx, sy)) else offset, sx, sy)
  }

  /** The pixels the first child moves back: the overflow on each axis times its scroll percentage. */
  function Shift(extent: Vec2, size: Vec2, scrollX: real, scrollY: real): Vec2 {
    Vec2((extent.x - size.x) * scrollX / 100.0, (extent.y - size.y) * scrollY / 100.0)
  }

  /**
    The shift of the first child: for percentages in [0,100] it lies, on each axis,
    between 0 and the overflow `extent - size`, and it is 0 on an axis with no overflow.
   */
  lemma AlignShiftBounded(offset: Vec2, extent: Vec2, size: Vec2, scrollX: real, scrollY: real)
    requires 0.0 <= scrollX <= 100.0 && 0.0 <= scrollY <= 100.0
    ensures var a := AlignHook(offset, 0, extent, size, scrollX, scrollY);
            && 0.0 <= offset.x - a.offset.x <= Max(0.0, extent.x - size.x)
            && 0.0 <= offset.y - a.offset.y <= Max(0.0, extent.y - size.y)
            && (extent.x <= size.x ==> a.offset.x == offset.x)
            && (extent.y <= size.y ==> a.offset.y == offset.y)
  {
    var a := AlignHook(offset, 0, extent, size, scrollX, scrollY);
    ShiftBounded(extent.x - size.x, a.scrollX);
    ShiftBounded(extent.y - size.y, a.scrollY);
  }

  /** An overflow scaled by a percentage in [0,100] lies between 0 and the overflow itself. */
  lemma ShiftBounded(overflow: real, scroll: real)
    requires overflow < 0.0 ==> scroll == 0.0
    ensures 0.0 <= scroll <= 100.0 ==> 0.0 <= overflow * scroll / 100.0 <= Max(0.0, overflow)
  {
    if 0.0 <= scroll <= 100.0 && overflow >= 0.0 {
      MulBounds(overflow, scroll / 100.0);
      assert overflow * scroll / 100.0 == overflow * (scroll / 100.0);
    }
  }

  /**
    A worked case: two 100x190 children with the default margin in a 200x200 panel
    laid out `Vertical` reach 400 along Y and only 20 along X, so at 50% the first
    child moves up by 100 pixels while the X scroll is forced to 0.
   */
  lemma HalfScrolledScenario()
    ensures var child := Footprint(Vec2(100.0, 190.0), DefaultMargin);
            Extent([child, child], Vertical) == Vec2(20.0, 400.0) &&
            AlignHook(Zero, 0, Vec2(20.0, 400.0), Vec2(200.0, 200.0), 30.0, 50.0) ==
              Aligned(Vec2(0.0, -100.0), 0.0, 50.0)
  {
    var child := Footprint(Vec2(100.0, 190.0), DefaultMargin);
    assert [child, child][1..] == [child];
    assert Extent([child], Vertical) == Vec2(10.0, 200.0);
    assert Shift(Vec2(20.0, 400.0), Vec2(200.0, 200.0), 0.0, 50.0) == Vec2(0.0, 100.0);
  }

  class ScrollPanel {
    const panel: Panel
    var scrollX: real
    var scrollY: real
    var scrollSpeedX: real
    var scrollSpeedY: real

    /** The clamping setters keep both percentages in [0,100]. */
    ghost predicate Valid()
      reads this, panel
    {
      panel.Valid() && 0.0 <= scrollX <= 100.0 && 0.0 <= scrollY <= 100.0
    }

    /** `ScrollPanel(color, width, height, x, y)`: a panel laid out `Vertical`, not scrolled, speed 10. */
    constructor (color: MuekColor, width: int, height: int, x: int := 0, y: int := 0)
      ensures Valid() && fresh(panel)
      ensures panel.color == color && panel.size == Vec2(width as real, height as real)
      ensures panel.position == Vec2(x as real, y as real) && panel.orientation == Vertical
      ensures panel.children == [] && !panel.isHovering && !panel.isPressed
      ensures panel.renderColor == color && panel.hoverColor == color
      ensures panel.scale == One && panel.hoverScale == One && panel.margin == DefaultMargin
      ensures panel.borderColor == Muek.Transparent && panel.borderRadius == Zero && panel.borderThickness == 0.0
      ensures panel.opacity == 255 && panel.renderLayer == 0 && panel.animationSpeed == 0.05 && panel.isAnimationDisabled
      ensures scrollX == 0.0 && scrollY == 0.0 && scrollSpeedX == 10.0 && scrollSpeedY == 10.0
    {
      var p := new Panel(color, width, height, x, y);
      p.orientation := Vertical;
      panel := p;
      scrollX := 0.0;
      scrollY := 0.0;
      scrollSpeedX := 10.0;
      scrollSpeedY := 10.0;
    }

    /** `ScrollPanel(width, height, x, y)`: the same on a transparent panel. */
    constructor Transparent(width: int, height: int, x: int := 0, y: int := 0)
      ensures Valid() && fresh(panel)
      ensures panel.color == Muek.Transparent && panel.size == Vec2(width as real, height as real)
      ensures panel.position == Vec2(x as real, y as real) && panel.orientation == Vertical
      ensures panel.children == [] && !panel.isHovering && !panel.isPressed
      ensures panel.renderColor == Muek.Transparent && panel.hoverColor == Muek.Transparent
      ensures panel.scale == One && panel.hoverScale == One && panel.margin == DefaultMargin
      ensures panel.borderColor == Muek.Transparent && panel.borderRadius == Zero && panel.borderThickness == 0.0
      ensures panel.opacity == 255 && panel.renderLayer == 0 && panel.animationSpeed == 0.05 && panel.isAnimationDisabled
      ensures scrollX == 0.0 && scrollY == 0.0 && scrollSpeedX == 10.0 && scrollSpeedY == 10.0
    {
      var p := new Panel(Muek.Transparent, width, height, x, y);
      p.orientation := Vertical;
      panel := p;
      scrollX := 0.0;
      scrollY := 0.0;
      scrollSpeedX := 10.0;
      scrollSpeedY := 10.0;
    }

    /** The `ScrollX` setter. */
    method SetScrollX(v: real)
      modifies this`scrollX
      ensures scrollX == Clamp(v, 0.0, 100.0)
      ensures 0.0 <= scrollX <= 100.0
    {
      scrollX := Clamp(v, 0.0, 100.0);
    }

    /** The `ScrollY` setter. */
    method SetScrollY(v: real)
      modifies this`scrollY
      ensures scrollY == Clamp(v, 0.0, 100.0)
      ensures 0.0 <= scrollY <= 100.0
    {
      scrollY := Clamp(v, 0.0, 100.0);
    }

    /** The wheel handler the constructor subscribes to `OnInput`. */
    method OnWheel(e: InputEvent)
      requires Valid()
      modifies this`scrollX, this`scrollY
      ensures Valid()
      ensures scrollY == WheelScrollY(old(scrollY), e, scrollSpeedY)
      ensures scrollX == WheelScrollX(old(scrollX), e, scrollSpeedX)
    {
      if e.Wheel? {
        WheelY(e.deltaY);
        WheelX(e.deltaX);
      }
    }

    /** The two vertical branches of the wheel handler. */
    method WheelY(deltaY: real)
      modifies this`scrollY
      ensures scrollY == WheelScrollY(old(scrollY), Wheel(0.0, deltaY), scrollSpeedY)
    {
      if deltaY > 0.0 {
        SetScrollY(scrollY - deltaY * scrollSpeedY);
      }
      if deltaY < 0.0 {
        SetScrollY(scrollY - deltaY * scrollSpeedY);
      }
    }

    /** The two horizontal branches of the wheel handler. */
    method WheelX(deltaX: real)
      modifies this`scrollX
      ensures scrollX == WheelScrollX(old(scrollX), Wheel(deltaX, 0.0), scrollSpeedX)
    {
      if deltaX > 0.0 {
        SetScrollX(scrollX + deltaX * scrollSpeedX);
      }
      if deltaX < 0.0 {
        SetScrollX(scrollX + deltaX * scrollSpeedX);
      }
    }

    /** `Input`: the panel's press/release handling, then the wheel handler. */
    method Input(e: InputEvent)
      requires Valid()
      modifies panel`isPressed, this`scrollX, this`scrollY
      ensures Valid()
      ensures e.PointerDown? ==> panel.isPressed == (old(panel.isPressed) || panel.isHovering)
      ensures e.PointerUp? ==> !panel.isPressed
      ensures !e.PointerDown? && !e.PointerUp? ==> panel.isPressed == old(panel.isPressed)
      ensures scrollY == WheelScrollY(old(scrollY), e, scrollSpeedY)
      ensures scrollX == WheelScrollX(old(scrollX), e, scrollSpeedX)
    {
      panel.Input(e);
      OnWheel(e);
    }

    /** `GetChildrenSize`: the extent of the children, accumulated child by child. */
    method GetChildrenSize() returns (r: Vec2)
      ensures r == Extent(FootprintsOf(panel.children), panel.orientation)
    {
      var cs := panel.children;
      r := Zero;
      for i := 0 to |cs|
        invariant r == Extent(FootprintsOf(cs[..i]), panel.orientation)
      {
        var child := cs[i];
        if panel.orientation == Horizontal {
          r := Vec2(r.x + child.size.x, r.y);
        } else if panel.orientation == Vertical {
          r := Vec2(r.x, r.y + child.size.y);
        }
        r := Vec2(r.x + child.margin.left + child.margin.right, r.y + child.margin.top + child.margin.bottom);
        assert cs[..i + 1][..i] == cs[..i];
        ExtentAppend(FootprintsOf(cs[..i]), Footprint(child.size, child.margin), panel.orientation);
      }
      assert cs[..|cs|] == cs;
    }

    /**
      The `OnAlign` hook: the children's extent, the forced scroll resets through the
      setters, and the shift of the first child.
     */
    method Align(offset: Vec2, index: int) returns (r: Vec2)
      requires Valid()
      modifies this`scrollX, this`scrollY
      ensures Valid()
      ensures var a := AlignHook(offset, index, Extent(FootprintsOf(panel.children), panel.orientation),
                                 panel.size, old(scrollX), old(scrollY));
              r == a.offset && scrollX == a.scrollX && scrollY == a.scrollY
    {
      var childrenSize := GetChildrenSize();
      ghost var a := AlignHook(offset, index, childrenSize, panel.size, scrollX, scrollY);
      if childrenSize.x < panel.size.x {
        SetScrollX(0.0);
      }
      if childrenSize.y < panel.size.y {
        SetScrollY(0.0);
      }
      var offsetX := (childrenSize.x - panel.size.x) * scrollX / 100.0;
      var offsetY := (childrenSize.y - panel.size.y) * scrollY / 100.0;
      assert Vec2(offsetX, offsetY) == Shift(childrenSize, panel.size, scrollX, scrollY);
      assert scrollX == a.scrollX && scrollY == a.scrollY;
      r := offset;
      if index == 0 {
        r := r.Minus(Vec2(offsetX, offsetY));
      }
      assert r == a.offset;
    }
  }
}
