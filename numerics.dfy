/**
  The numeric primitives the widget code borrows from .NET: `Vector2`, `float.Lerp`,
  `Vector2.Lerp`, `float.Clamp` and the `(byte)` cast. Floats are modelled as `real`,
  so IEEE rounding is not part of the model.
 */
module Numerics {

  /** An unsigned 8-bit integer, as C#'s `byte`. */
  newtype byte = x: int | 0 <= x < 256

  /** `System.Numerics.Vector2`. */
  datatype Vec2 = Vec2(x: real, y: real) {
    function Plus(other: Vec2): Vec2 {
      Vec2(x + other.x, y + other.y)
    }

    function Minus(other: Vec2): Vec2 {
      Vec2(x - other.x, y - other.y)
    }
  }

  const Zero := Vec2(0.0, 0.0)
  const One := Vec2(1.0, 1.0)

  function Min(a: real, b: real): real { if a <= b then a else b }
  function Max(a: real, b: real): real { if a <= b then b else a }

  /** `v` lies between `a` and `b`, in whichever order they come. */
  predicate Between(a: real, v: real, b: real) {
    Min(a, b) <= v <= Max(a, b)
  }

  /**
    `float.Lerp(a, b, t)`, which .NET computes as `a * (1 - t) + b * t`. The result
    hits both endpoints exactly, stays between them for `t` in [0,1], and its distance
    to `b` is the old distance scaled by `1 - t`.
   */
  function Lerp(a: real, b: real, t: real): (r: real)
    ensures t == 0.0 ==> r == a
    ensures t == 1.0 ==> r == b
    ensures r - b == (a - b) * (1.0 - t)
    ensures 0.0 <= t <= 1.0 ==> Between(a, r, b)
  {
    var r := a * (1.0 - t) + b * t;
    assert r - a == (b - a) * t;
    LerpStaysBetween(a, b, t);
    r
  }

  lemma LerpStaysBetween(a: real, b: real, t: real)
    ensures 0.0 <= t <= 1.0 ==> Between(a, a + (b - a) * t, b)
  {
    if 0.0 <= t <= 1.0 {
      if a <= b {
        MulBounds(b - a, t);
      } else {
        MulBounds(a - b, t);
        assert (b - a) * t == -((a - b) * t);
      }
    }
  }

  /** A non-negative `d` scaled by a factor in [0,1] stays in [0,d]. */
  lemma MulBounds(d: real, t: real)
    requires 0.0 <= d && 0.0 <= t <= 1.0
    ensures 0.0 <= d * t <= d
  {
    assert d * t <= d * 1.0;
  }

  /** `Vector2.Lerp`: component-wise `Lerp`. */
  function VecLerp(a: Vec2, b: Vec2, t: real): (r: Vec2)
    ensures t == 0.0 ==> r == a
    ensures t == 1.0 ==> r == b
    ensures 0.0 <= t <= 1.0 ==> Between(a.x, r.x, b.x) && Between(a.y, r.y, b.y)
  {
    Vec2(Lerp(a.x, b.x, t), Lerp(a.y, b.y, t))
  }

  /**
    `float.Clamp(v, lo, hi)`; .NET throws when `lo > hi`, which the callers here
    (always 0 and 100) never trigger.
   */
  function Clamp(v: real, lo: real, hi: real): (r: real)
    requires lo <= hi
    ensures lo <= r <= hi
    ensures lo <= v <= hi ==> r == v
    ensures r == lo || r == v || r == hi
  {
    if v < lo then lo else if v > hi then hi else v
  }

  /**
    The `(byte)` conversion of a float: truncation, which is `Floor` on the
    non-negative values the transitions produce. Values outside [0,255] saturate,
    as .NET 9's conversion does.
   */
  function ByteCast(v: real): (r: byte)
    ensures 0.0 <= v < 256.0 ==> r as int == v.Floor
    ensures r as real <= Max(v, 0.0)
  {
    if v < 0.0 then 0 else if v >= 255.0 then 255 else v.Floor as byte
  }

  /** A value between two bytes converts to a byte between them. */
  lemma ByteCastBetween(lo: byte, v: real, hi: byte)
    requires Between(lo as real, v, hi as real)
    ensures Between(lo as real, ByteCast(v) as real, hi as real)
  {
    var m := if lo <= hi then lo else hi;
    assert m as real <= v;
    assert (m as int) <= v.Floor;
  }
}
