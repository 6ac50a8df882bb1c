/**
  `Text`, the leaf control: where its string is anchored inside its box, with which
  alignment, and at what font size. The drawing itself is left to the backend.
 */
module Texts {
  import opened Numerics
  import opened Muek

  /** `SKTextAlign`. */
  datatype TextAlign = AlignLeft | AlignCenter | AlignRight

  /** The point and alignment `Render` hands to `DrawText`. */
  datatype TextAnchor = TextAnchor(point: Vec2, align: TextAlign)

  datatype Text = Text(
    content: string,
    position: Vec2,
    size: Vec2,
    scale: Vec2,
    margin: Margin,
    textPosition: TextPosition,
    opacity: int,
    renderLayer: int,
    fontSize: real,
    color: MuekColor)

  /**
    `new Text(content, width = -1, height = -1, x = 0, y = 0)`: anchored top-left in
    black at font size 12, unit scale, opaque; a size of -1 means "take the parent's
    size" to `AddText`.
   */
  function NewText(content: string, width: int := -1, height: int := -1, x: int := 0, y: int := 0): (t: Text)
    ensures t.content == content
    ensures t.size == Vec2(width as real, height as real) && t.position == Vec2(x as real, y as real)
    ensures t.textPosition == TopLeft && t.fontSize == 12.0 && t.color == Black
    ensures t.scale == One && t.margin == DefaultMargin && t.opacity == 255 && t.renderLayer == 0
  {
    Text(content, Vec2(x as real, y as real), Vec2(width as real, height as real), One, DefaultMargin,
         TopLeft, 255, 0, 12.0, Black)
  }

  /**
    The anchor switch of `Render`. The C# local `vCenter` is the
    horizontal centre `Size.X / 2`, and `hCenter` is the vertical correction
    `Size.Y / 2 - FontSize / 1.5`. The column of a declared anchor fixes X and the
    alignment, its row fixes Y; an undeclared value falls back to the top-left rule.
   */
  function Anchor(t: Text): (a: TextAnchor)
    ensures var p := t.textPosition;
            IsDeclaredPosition(p) ==>
              && (Column(p) == 0 ==> a.point.x == t.position.x && a.align == AlignLeft)
              && (Column(p) == 1 ==> a.point.x == t.position.x + t.size.x / 2.0 && a.align == AlignCenter)
              && (Column(p) == 2 ==> a.point.x == t.position.x + t.size.x && a.align == AlignRight)
              && (Row(p) == 0 ==> a.point.y == t.position.y + t.fontSize)
              && (Row(p) == 1 ==> a.point.y == t.position.y + t.fontSize + t.size.y / 2.0 - t.fontSize / 1.5)
              && (Row(p) == 2 ==> a.point.y == t.position.y + t.fontSize + t.size.y - t.fontSize * 1.5)
    ensures !IsDeclaredPosition(t.textPosition) ==>
              a == TextAnchor(Vec2(t.position.x, t.position.y + t.fontSize), AlignLeft)
  {
    var vCenter := t.size.x / 2.0;
    var hCenter := t.size.y / 2.0 - t.fontSize / 1.5;
    var right := t.size.x;
    var bottom := t.size.y - t.fontSize * 1.5;
    var x := t.position.x;
    var y := t.position.y;
    var fs := t.fontSize;
    match t.textPosition
    case 0 => TextAnchor(Vec2(x, y + fs), AlignLeft)
    case 1 => TextAnchor(Vec2(x + vCenter, y + fs), AlignCenter)
    case 2 => TextAnchor(Vec2(x + right, y + fs), AlignRight)
    case 3 => TextAnchor(Vec2(x, y + fs + hCenter), AlignLeft)
    case 4 => TextAnchor(Vec2(x + vCenter, y + fs + hCenter), AlignCenter)
    case 5 => TextAnchor(Vec2(x + right, y + fs + hCenter), AlignRight)
    case 6 => TextAnchor(Vec2(x, y + fs + bottom), AlignLeft)
    case 7 => TextAnchor(Vec2(x + vCenter, y + fs + bottom), AlignCenter)
    case 8 => TextAnchor(Vec2(x + right, y + fs + bottom), AlignRight)
    case _ => TextAnchor(Vec2(x, y + fs), AlignLeft)
  }

  /** The default branch of the switch agrees with `TopLeft`. */
  lemma UndeclaredAnchorIsTopLeft(t: Text)
    requires !IsDeclaredPosition(t.textPosition)
    ensures Anchor(t) == Anchor(t.(textPosition := TopLeft))
  {
  }

  /** The anchor depends on position, size, font size and anchor name only, never on scale. */
  lemma AnchorIgnoresScale(t: Text, scale: Vec2)
    ensures Anchor(t.(scale := scale)) == Anchor(t)
  {
  }

  /** The font size `DrawText` is given: `FontSize * Scale.X`. */
  function DrawnFontSize(t: Text): (s: real)
    ensures t.scale.x == 1.0 ==> s == t.fontSize
    ensures t.scale.x == 0.0 || t.fontSize == 0.0 <==> s == 0.0
  {
    t.fontSize * t.scale.x
  }

  /** Only the X component of the scale reaches the font; `Scale.Y` has no effect on a text. */
  lemma ScaleYIgnored(t: Text, sy: real)
    ensures DrawnFontSize(t.(scale := Vec2(t.scale.x, sy))) == DrawnFontSize(t)
    ensures Anchor(t.(scale := Vec2(t.scale.x, sy))) == Anchor(t)
  {
  }
}
