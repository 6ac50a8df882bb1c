/**
  `Button`: a panel that animates while pressed, counts its clicks (the `OnClick`
  event), and ignores clicks while disabled. Its overrides of the panel's leave,
  press, release and click handlers are methods here that call the base handlers of
  the panel it extends; `Render` and `Input` run the panel's passes with these
  overrides in place.
 */
module Buttons {
  import opened Numerics
  import opened Muek
  import opened Panels

  class Button {
    const panel: Panel
    var isDisabled: bool
    var clickedScale: Vec2
    var pressedScale: Vec2
    var pressedColor: MuekColor
    var disabledColor: MuekColor
    /** How many times `OnClick` has fired. */
    var clicks: nat

    ghost predicate Valid()
      reads this, panel
    {
      panel.Valid()
    }

    /**
      `Button(color, width, height, x, y)`: animated at speed 0.1, a grey two-pixel
      border with radius 4, hover scale 1.05, pressed colour equal to the base colour,
      clicked scale 0.95 and pressed scale 0.98, enabled.
     */
    constructor (color: MuekColor, disabledColor: MuekColor, width: int, height: int, x: int := 0, y: int := 0)
      ensures Valid() && fresh(panel)
      ensures panel.color == color && panel.renderColor == color && panel.hoverColor == color
      ensures panel.size == Vec2(width as real, height as real) && panel.position == Vec2(x as real, y as real)
      ensures panel.scale == One && panel.margin == DefaultMargin && panel.orientation == Vertical
      ensures panel.borderRadius == Vec2(4.0, 4.0) && panel.borderColor == Grey && panel.borderThickness == 2.0
      ensures panel.hoverScale == Vec2(1.05, 1.05) && !panel.isAnimationDisabled && panel.animationSpeed == 0.1
      ensures panel.children == [] && !panel.isHovering && !panel.isPressed
      ensures pressedColor == color && this.disabledColor == disabledColor && !isDisabled
      ensures clickedScale == Vec2(0.95, 0.95) && pressedScale == Vec2(0.98, 0.98) && clicks == 0
    {
      var p := new Panel(color, width, height, x, y);
      p.size := Vec2(width as real, height as real);
      p.position := Vec2(x as real, y as real);
      p.borderRadius := Vec2(4.0, 4.0);
      p.borderColor := Grey;
      p.borderThickness := 2.0;
      p.hoverScale := Vec2(1.05, 1.05);
      p.isAnimationDisabled := false;
      p.animationSpeed := 0.1;
      panel := p;
      isDisabled := false;
      clickedScale := Vec2(0.95, 0.95);
      pressedScale := Vec2(0.98, 0.98);
      pressedColor := color;
      this.disabledColor := disabledColor;
      clicks := 0;
    }

    /**
      `OnLeave`: an enabled button leaves like a panel; a disabled one only drops the
      hover state and eases its scale back to one, leaving the colour alone.
     */
    method OnLeave()
      modifies panel`isHovering, panel`renderLayer, panel`renderColor, panel`scale
      ensures Valid() && !panel.isHovering && panel.renderLayer == 0
      ensures panel.scale == ScaleTransition(panel.isAnimationDisabled, old(panel.scale), One, panel.animationSpeed)
      ensures isDisabled ==> panel.renderColor == old(panel.renderColor)
      ensures !isDisabled ==>
                panel.renderColor == ColorTransition(panel.isAnimationDisabled, old(panel.renderColor), panel.color, panel.animationSpeed)
    {
      if !isDisabled {
        panel.OnLeave();
      } else {
        panel.isHovering := false;
        panel.renderLayer := 0;
        panel.TransitionToScale(One, panel.animationSpeed);
      }
    }

    /** `OnPointerPressed`, run on every frame the button is pressed: ease toward the pressed look. */
    method OnPointerPressed()
      modifies panel`renderColor, panel`scale
      ensures panel.renderColor == ColorTransition(panel.isAnimationDisabled, old(panel.renderColor), pressedColor, panel.animationSpeed)
      ensures panel.scale == ScaleTransition(panel.isAnimationDisabled, old(panel.scale), pressedScale, panel.animationSpeed)
    {
      panel.TransitionToColor(pressedColor, panel.animationSpeed);
      panel.TransitionToScale(pressedScale, panel.animationSpeed);
    }

    /** `OnPointerReleased`: no longer pressed, easing back to the base colour and unit scale. */
    method OnPointerReleased()
      modifies panel`isPressed, panel`renderColor, panel`scale
      ensures !panel.isPressed
      ensures panel.renderColor == ColorTransition(panel.isAnimationDisabled, old(panel.renderColor), panel.color, panel.animationSpeed)
      ensures panel.scale == ScaleTransition(panel.isAnimationDisabled, old(panel.scale), One, panel.animationSpeed)
    {
      panel.OnPointerReleased();
      panel.TransitionToColor(panel.color, panel.animationSpeed);
      panel.TransitionToScale(One, panel.animationSpeed);
    }

    /**
      `OnPointerClicked`: ignored while disabled; otherwise pressed, snapped to the
      clicked scale, and `OnClick` fires once.
     */
    method OnPointerClicked()
      modifies panel`isPressed, panel`scale, this`clicks
      ensures isDisabled ==> panel.isPressed == old(panel.isPressed) && panel.scale == old(panel.scale) && clicks == old(clicks)
      ensures !isDisabled ==> panel.isPressed && panel.scale == clickedScale && clicks == old(clicks) + 1
    {
      if isDisabled {
        return;
      }
      panel.OnPointerClicked();
      panel.scale := clickedScale;
      clicks := clicks + 1;
    }

    /** The render hook the constructor subscribes: a disabled button eases toward its disabled colour. */
    method RenderHook()
      modifies panel`renderColor
      ensures panel.renderColor ==
                if isDisabled then ColorTransition(panel.isAnimationDisabled, old(panel.renderColor), disabledColor, panel.animationSpeed)
                else old(panel.renderColor)
    {
      if !isDisabled {
        return;
      }
      panel.TransitionToColor(disabledColor, panel.animationSpeed);
    }

    /**
      One `Render` pass: the panel's hover test with the button's `OnLeave`, the
      pressed animation while pressed, then the render hook. A disabled button thus
      ends each frame one step closer to its disabled colour, and exactly on it when
      animation is off.
     */
    method Render(pointer: Vec2)
      modifies panel`isHovering, panel`renderLayer, panel`renderColor, panel`scale
      ensures Valid()
      ensures panel.isHovering == old(panel.PointerInside(pointer))
      ensures var d, s := panel.isAnimationDisabled, panel.animationSpeed;
              var c1 := if panel.isHovering then ColorTransition(d, old(panel.renderColor), panel.hoverColor, s)
                        else if isDisabled then old(panel.renderColor)
                        else ColorTransition(d, old(panel.renderColor), panel.color, s);
              var c2 := if panel.isPressed then ColorTransition(d, c1, pressedColor, s) else c1;
              panel.renderColor == if isDisabled then ColorTransition(d, c2, disabledColor, s) else c2
      ensures var d, s := panel.isAnimationDisabled, panel.animationSpeed;
              var s1 := ScaleTransition(d, old(panel.scale), if panel.isHovering then panel.hoverScale else One, s);
              panel.scale == if panel.isPressed then ScaleTransition(d, s1, pressedScale, s) else s1
      ensures isDisabled && panel.isAnimationDisabled ==> panel.renderColor == disabledColor
    {
      if panel.PointerInside(pointer) {
        panel.OnHover();
      } else {
        OnLeave();
      }
      if panel.isPressed {
        OnPointerPressed();
      }
      RenderHook();
    }

    /**
      The flag changes of `Input` with the button's click and release: a pointer-down
      on a hovered button clicks it, a pointer-up releases a pressed one. A disabled
      button is never pressed by a pointer-down.
     */
    method Input(e: InputEvent)
      modifies panel`isPressed, panel`renderColor, panel`scale, this`clicks
      ensures e.PointerDown? && panel.isHovering && !isDisabled ==>
                panel.isPressed && panel.scale == clickedScale && clicks == old(clicks) + 1
      ensures e.PointerDown? && (!panel.isHovering || isDisabled) ==>
                panel.isPressed == old(panel.isPressed) && panel.scale == old(panel.scale) && clicks == old(clicks)
      ensures e.PointerUp? ==> !panel.isPressed && clicks == old(clicks)
      ensures e.PointerUp? && old(panel.isPressed) ==>
                panel.scale == ScaleTransition(panel.isAnimationDisabled, old(panel.scale), One, panel.animationSpeed)
      ensures !e.PointerDown? && !e.PointerUp? ==>
                panel.isPressed == old(panel.isPressed) && panel.scale == old(panel.scale) && clicks == old(clicks)
      ensures e.PointerUp? && old(panel.isPressed) ==>
                panel.renderColor == ColorTransition(panel.isAnimationDisabled, old(panel.renderColor), panel.color, panel.animationSpeed)
      ensures e.PointerUp? && !old(panel.isPressed) ==> panel.scale == old(panel.scale)
      ensures !(e.PointerUp? && old(panel.isPressed)) ==> panel.renderColor == old(panel.renderColor)
      ensures isDisabled && !old(panel.isPressed) ==> !panel.isPressed
    {
      if e.PointerDown? {
        if panel.isHovering {
          OnPointerClicked();
        }
      }
      if e.PointerUp? {
        if panel.isPressed {
          OnPointerReleased();
        }
      }
    }
  }

  /**
    A worked frame: an animated Muek-green button at (300,200), 200 by 200, with a
    light hover colour, under a pointer at (400,300) is hovered, promoted to layer 1,
    and one tenth of the way to the hover colour, with the channels truncated.
   */
  method HoverScenario() returns (b: Button)
    ensures b.panel.isHovering && b.panel.renderLayer == 1
    ensures b.panel.renderColor == MuekColor(105, 205, 155, 255)
    ensures b.panel.scale == Vec2(1.005, 1.005)
  {
    b := new Button(Muek.Muek, Grey, 200, 200, 300, 200);
    b.panel.hoverColor := LightMuek;
    b.Render(Vec2(400.0, 300.0));
  }
}
