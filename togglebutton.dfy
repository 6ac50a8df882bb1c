/**
  `ToggleButton`: a button with a checked state that every click flips. While checked
  it eases toward its checked look each frame and keeps that look when the pointer
  leaves; `OnCheck` and `OnUncheck` fire once per frame in the matching state.
 */
module ToggleButtons {
  import opened Numerics
  import opened Muek
  import opened Panels
  import opened Buttons

  class ToggleButton {
    const button: Button
    var isChecked: bool
    var checkedColor: MuekColor
    var checkedScale: Vec2
    /** How many times `OnCheck` has fired. */
    var checks: nat
    /** How many times `OnUncheck` has fired. */
    var unchecks: nat

    ghost predicate Valid()
      reads this, button, button.panel
    {
      button.Valid()
    }

    /** `ToggleButton(color, width, height, x, y)`: a button, unchecked, whose checked look is its base colour at unit scale. */
    constructor (color: MuekColor, disabledColor: MuekColor, width: int, height: int, x: int := 0, y: int := 0)
      ensures Valid() && fresh(button) && fresh(button.panel)
      ensures button.panel.color == color && button.panel.renderColor == color && !button.isDisabled
      ensures button.panel.size == Vec2(width as real, height as real) && button.panel.position == Vec2(x as real, y as real)
      ensures !button.panel.isHovering && !button.panel.isPressed && button.clicks == 0
      ensures button.panel.hoverColor == color && button.panel.scale == One && button.panel.margin == DefaultMargin
      ensures button.panel.orientation == Vertical && button.panel.children == []
      ensures button.panel.borderRadius == Vec2(4.0, 4.0) && button.panel.borderColor == Grey && button.panel.borderThickness == 2.0
      ensures button.panel.hoverScale == Vec2(1.05, 1.05) && !button.panel.isAnimationDisabled && button.panel.animationSpeed == 0.1
      ensures button.pressedColor == color && button.disabledColor == disabledColor
      ensures button.clickedScale == Vec2(0.95, 0.95) && button.pressedScale == Vec2(0.98, 0.98)
      ensures !isChecked && checkedColor == color && checkedScale == One && checks == 0 && unchecks == 0
    {
      button := new Button(color, disabledColor, width, height, x, y);
      isChecked := false;
      checkedColor := color;
      checkedScale := One;
      checks := 0;
      unchecks := 0;
    }

    /**
      `OnPointerClicked`: the button's click (ignored while disabled), then the flip of
      `IsChecked`, which happens even when the button is disabled.
     */
    method OnPointerClicked()
      modifies button.panel`isPressed, button.panel`scale, button`clicks, this`isChecked
      ensures isChecked == !old(isChecked)
      ensures button.isDisabled ==>
                button.panel.isPressed == old(button.panel.isPressed) && button.panel.scale == old(button.panel.scale) &&
                button.clicks == old(button.clicks)
      ensures !button.isDisabled ==>
                button.panel.isPressed && button.panel.scale == button.clickedScale && button.clicks == old(button.clicks) + 1
    {
      button.OnPointerClicked();
      isChecked := !isChecked;
    }

    /**
      `OnLeave`: drops the hover state; only an unchecked toggle goes on to the
      button's leave, so a checked one keeps its colour and scale.
     */
    method OnLeave()
      modifies button.panel`isHovering, button.panel`renderLayer, button.panel`renderColor, button.panel`scale
      ensures Valid() && !button.panel.isHovering && button.panel.renderLayer == 0
      ensures isChecked ==> button.panel.renderColor == old(button.panel.renderColor) && button.panel.scale == old(button.panel.scale)
      ensures !isChecked ==>
                button.panel.scale == ScaleTransition(button.panel.isAnimationDisabled, old(button.panel.scale), One, button.panel.animationSpeed)
      ensures !isChecked && button.isDisabled ==> button.panel.renderColor == old(button.panel.renderColor)
      ensures !isChecked && !button.isDisabled ==>
                button.panel.renderColor ==
                  ColorTransition(button.panel.isAnimationDisabled, old(button.panel.renderColor), button.panel.color, button.panel.animationSpeed)
    {
      button.panel.isHovering := false;
      button.panel.renderLayer := 0;
      if !isChecked {
        button.OnLeave();
      }
    }

    /** `OnChecked`: ease toward the checked colour and scale, then fire `OnCheck`. */
    method OnChecked()
      modifies button.panel`renderColor, button.panel`scale, this`checks
      ensures button.panel.renderColor ==
                ColorTransition(button.panel.isAnimationDisabled, old(button.panel.renderColor), checkedColor, button.panel.animationSpeed)
      ensures button.panel.scale ==
                ScaleTransition(button.panel.isAnimationDisabled, old(button.panel.scale), checkedScale, button.panel.animationSpeed)
      ensures checks == old(checks) + 1
    {
      button.panel.TransitionToColor(checkedColor, button.panel.animationSpeed);
      button.panel.TransitionToScale(checkedScale, button.panel.animationSpeed);
      checks := checks + 1;
    }

    /** `OnUnchecked`: fire `OnUncheck`, nothing else. */
    method OnUnchecked()
      modifies this`unchecks
      ensures unchecks == old(unchecks) + 1
    {
      unchecks := unchecks + 1;
    }

    /** The render hook the constructor subscribes: one of the two handlers, by state. */
    method RenderHook()
      modifies button.panel`renderColor, button.panel`scale, this`checks, this`unchecks
      ensures isChecked ==> checks == old(checks) + 1 && unchecks == old(unchecks)
      ensures !isChecked ==> unchecks == old(unchecks) + 1 && checks == old(checks)
      ensures isChecked ==>
                button.panel.renderColor ==
                  ColorTransition(button.panel.isAnimationDisabled, old(button.panel.renderColor), checkedColor, button.panel.animationSpeed) &&
                button.panel.scale ==
                  ScaleTransition(button.panel.isAnimationDisabled, old(button.panel.scale), checkedScale, button.panel.animationSpeed)
      ensures !isChecked ==> button.panel.renderColor == old(button.panel.renderColor) && button.panel.scale == old(button.panel.scale)
    {
      if isChecked {
        OnChecked();
      } else {
        OnUnchecked();
      }
    }

    /**
      The first half of a `Render` pass: the hover test with the toggle's `OnLeave`,
      then the button's pressed animation while pressed.
     */
    method PointerStep(pointer: Vec2)
      modifies button.panel`isHovering, button.panel`renderLayer, button.panel`renderColor, button.panel`scale
      ensures Valid()
      ensures button.panel.isHovering == old(button.panel.PointerInside(pointer))
      ensures var p, b := button.panel, button;
              var d, s := p.isAnimationDisabled, p.animationSpeed;
              var c1 := if p.isHovering then ColorTransition(d, old(p.renderColor), p.hoverColor, s)
                        else if isChecked || b.isDisabled then old(p.renderColor)
                        else ColorTransition(d, old(p.renderColor), p.color, s);
              var s1 := if p.isHovering then ScaleTransition(d, old(p.scale), p.hoverScale, s)
                        else if isChecked then old(p.scale)
                        else ScaleTransition(d, old(p.scale), One, s);
              && p.renderColor == (if p.isPressed then ColorTransition(d, c1, b.pressedColor, s) else c1)
              && p.scale == (if p.isPressed then ScaleTransition(d, s1, b.pressedScale, s) else s1)
    {
      var p := button.panel;
      ghost var d, s := p.isAnimationDisabled, p.animationSpeed;
      ghost var c0, s0 := p.renderColor, p.scale;
      if p.PointerInside(pointer) {
        p.OnHover();
      } else {
        OnLeave();
      }
      ghost var c1, s1 := p.renderColor, p.scale;
      assert c1 == if p.isHovering then ColorTransition(d, c0, p.hoverColor, s)
                   else if isChecked || button.isDisabled then c0
                   else ColorTransition(d, c0, p.color, s);
      assert s1 == if p.isHovering then ScaleTransition(d, s0, p.hoverScale, s)
                   else if isChecked then s0
                   else ScaleTransition(d, s0, One, s);
      if p.isPressed {
        button.OnPointerPressed();
      }
    }

    /**
      One `Render` pass: `PointerStep`, then the two render hooks in the order the
      constructors subscribed them: the button's, then the toggle's. Exactly one of
      `OnCheck` and `OnUncheck` fires. A checked toggle with animation off ends the
      frame exactly on its checked scale and colour, even when disabled.
     */
    method Render(pointer: Vec2)
      modifies button.panel`isHovering, button.panel`renderLayer, button.panel`renderColor, button.panel`scale
      modifies this`checks, this`unchecks
      ensures Valid()
      ensures button.panel.isHovering == old(button.panel.PointerInside(pointer))
      ensures isChecked ==> checks == old(checks) + 1 && unchecks == old(unchecks)
      ensures !isChecked ==> unchecks == old(unchecks) + 1 && checks == old(checks)
      ensures var p, b := button.panel, button;
              var d, s := p.isAnimationDisabled, p.animationSpeed;
              var c1 := if p.isHovering then ColorTransition(d, old(p.renderColor), p.hoverColor, s)
                        else if isChecked || b.isDisabled then old(p.renderColor)
                        else ColorTransition(d, old(p.renderColor), p.color, s);
              var c2 := if p.isPressed then ColorTransition(d, c1, b.pressedColor, s) else c1;
              var c3 := if b.isDisabled then ColorTransition(d, c2, b.disabledColor, s) else c2;
              p.renderColor == if isChecked then ColorTransition(d, c3, checkedColor, s) else c3
      ensures var p, b := button.panel, button;
              var d, s := p.isAnimationDisabled, p.animationSpeed;
              var s1 := if p.isHovering then ScaleTransition(d, old(p.scale), p.hoverScale, s)
                        else if isChecked then old(p.scale)
                        else ScaleTransition(d, old(p.scale), One, s);
              var s2 := if p.isPressed then ScaleTransition(d, s1, b.pressedScale, s) else s1;
              p.scale == if isChecked then ScaleTransition(d, s2, checkedScale, s) else s2
      ensures isChecked && button.panel.isAnimationDisabled ==> button.panel.scale == checkedScale && button.panel.renderColor == checkedColor
    {
      PointerStep(pointer);
      ghost var c2, s2 := button.panel.renderColor, button.panel.scale;
      button.RenderHook();
      assert button.panel.scale == s2;
      RenderHook();
    }

    /**
      The flag changes of `Input` with the toggle's click: a pointer-down on a hovered
      toggle clicks it and flips `IsChecked`, disabled or not; a pointer-up releases a
      pressed one; nothing else touches the checked state.
     */
    method Input(e: InputEvent)
      modifies button.panel`isPressed, button.panel`renderColor, button.panel`scale, button`clicks, this`isChecked
      ensures e.PointerDown? && button.panel.isHovering ==> isChecked == !old(isChecked)
      ensures !(e.PointerDown? && button.panel.isHovering) ==> isChecked == old(isChecked)
      ensures var p, b := button.panel, button;
              e.PointerDown? && p.isHovering && !b.isDisabled ==>
                p.isPressed && p.scale == b.clickedScale && b.clicks == old(b.clicks) + 1
      ensures var p, b := button.panel, button;
              e.PointerDown? && (!p.isHovering || b.isDisabled) ==>
                p.isPressed == old(p.isPressed) && p.scale == old(p.scale) && b.clicks == old(b.clicks)
      ensures e.PointerUp? ==> !button.panel.isPressed && button.clicks == old(button.clicks)
      ensures var p := button.panel;
              e.PointerUp? && old(p.isPressed) ==>
                p.scale == ScaleTransition(p.isAnimationDisabled, old(p.scale), One, p.animationSpeed) &&
                p.renderColor == ColorTransition(p.isAnimationDisabled, old(p.renderColor), p.color, p.animationSpeed)
      ensures e.PointerUp? && !old(button.panel.isPressed) ==> button.panel.scale == old(button.panel.scale)
      ensures !e.PointerDown? && !e.PointerUp? ==>
                button.panel.isPressed == old(button.panel.isPressed) && button.panel.scale == old(button.panel.scale) &&
                button.clicks == old(button.clicks)
      ensures !(e.PointerUp? && old(button.panel.isPressed)) ==> button.panel.renderColor == old(button.panel.renderColor)
    {
      if e.PointerDown? {
        if button.panel.isHovering {
          OnPointerClicked();
        }
      }
      if e.PointerUp? {
        if button.panel.isPressed {
          button.OnPointerReleased();
        }
      }
    }

    /** Two clicks in a row leave `IsChecked` where it was, and a disabled toggle still flips on each. */
    method ClickTwice()
      modifies button.panel`isPressed, button.panel`scale, button`clicks, this`isChecked
      ensures isChecked == old(isChecked)
      ensures button.isDisabled ==> button.clicks == old(button.clicks)
      ensures !button.isDisabled ==> button.clicks == old(button.clicks) + 2
    {
      OnPointerClicked();
      OnPointerClicked();
    }
  }
}
