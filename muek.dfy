/**
  The value types of `Muek`: margins, colours and the palette, the two enums, and the
  pointer events the controls react to.
 */
module Muek {
  import opened Numerics

  /**
    `Muek.Margin(left, top, right, bottom)`: the positional order is left, top, right,
    bottom, and each argument lands in the field of the same name.
   */
  datatype Margin = Margin(left: real, top: real, right: real, bottom: real)

  /** The margin every control starts with. */
  const DefaultMargin := Margin(5.0, 5.0, 5.0, 5.0)

  /** `Muek.MuekColor(r, g, b, a)`: every channel defaults to 255 (opaque white). */
  datatype MuekColor = MuekColor(red: byte := 255, green: byte := 255, blue: byte := 255, alpha: byte := 255)

  // The palette of `Muek.MuekColors`.
  const White := MuekColor()
  const Black := MuekColor(0, 0, 0)
  const Transparent := MuekColor(255, 255, 255, 0)
  const Grey := MuekColor(128, 128, 128)
  const Muek := MuekColor(100, 200, 150)
  const LightMuek := MuekColor(150, 250, 200)
  const DarkMuek := MuekColor(50, 100, 75)
  const MuekRed := MuekColor(220, 60, 60)
  const LightMuekRed := MuekColor(250, 120, 120)
  const DarkMuekRed := MuekColor(100, 30, 20)
  const MuekBlue := MuekColor(100, 140, 250)
  const LightMuekBlue := MuekColor(150, 200, 250)
  const DarkMuekBlue := MuekColor(20, 50, 100)

  lemma PaletteChannels()
    ensures MuekColor() == MuekColor(255, 255, 255, 255) == White
    ensures Black == MuekColor(0, 0, 0, 255)
    ensures Transparent.alpha == 0 && Transparent == White.(alpha := 0)
  {
  }

  lemma MarginFieldsByPosition(l: real, t: real, r: real, b: real)
    ensures var m := Margin(l, t, r, b); m.left == l && m.top == t && m.right == r && m.bottom == b
  {
  }

  /**
    `Muek.Orientation`. A C# enum is its integer storage, so undeclared values exist;
    the two declared ones are `Vertical` (children run left to right) and `Horizontal`
    (children run top to bottom).
   */
  newtype Orientation = int

  const Vertical: Orientation := 0
  const Horizontal: Orientation := 1

  predicate IsDeclaredOrientation(o: Orientation) {
    o == Vertical || o == Horizontal
  }

  /** `Muek.TextPosition`: nine anchors numbered row by row, top-left first. */
  newtype TextPosition = int

  const TopLeft: TextPosition := 0
  const Top: TextPosition := 1
  const TopRight: TextPosition := 2
  const Left: TextPosition := 3
  const Center: TextPosition := 4
  const Right: TextPosition := 5
  const BottomLeft: TextPosition := 6
  const Bottom: TextPosition := 7
  const BottomRight: TextPosition := 8

  predicate IsDeclaredPosition(p: TextPosition) {
    0 <= p <= 8
  }

  /** The anchor's row: 0 top, 1 middle, 2 bottom. */
  function Row(p: TextPosition): (r: int)
    requires IsDeclaredPosition(p)
    ensures 0 <= r < 3
  {
    (p as int) / 3
  }

  /** The anchor's column: 0 left, 1 centre, 2 right. */
  function Column(p: TextPosition): (c: int)
    requires IsDeclaredPosition(p)
    ensures 0 <= c < 3
  {
    (p as int) % 3
  }

  /** Row and column determine a declared anchor, in row-major order. */
  lemma {:induction false} RowMajor(p: TextPosition, q: TextPosition)
    requires IsDeclaredPosition(p) && IsDeclaredPosition(q)
    ensures p as int == 3 * Row(p) + Column(p)
    ensures Row(p) == Row(q) && Column(p) == Column(q) ==> p == q
  {
  }

  lemma AnchorNames()
    ensures Row(TopLeft) == Row(Top) == Row(TopRight) == 0
    ensures Row(Left) == Row(Center) == Row(Right) == 1
    ensures Row(BottomLeft) == Row(Bottom) == Row(BottomRight) == 2
    ensures Column(TopLeft) == Column(Left) == Column(BottomLeft) == 0
    ensures Column(Top) == Column(Center) == Column(Bottom) == 1
    ensures Column(TopRight) == Column(Right) == Column(BottomRight) == 2
  {
  }

  /**
    The SDL events the controls look at: a button press, a button release, a wheel
    turn with its two deltas, and anything else.
   */
  datatype InputEvent = PointerDown | PointerUp | Wheel(deltaX: real, deltaY: real) | OtherEvent
}
