/**
 * Integer rectangles and real vectors: the parts of pygame's `Rect` and
 * `Vector2` that the animation relies on. Python floats are modelled as
 * `real`; a rectangle has integer corners and non-negative sizes.
 */
module Geometry {

  /** pygame turns a float coordinate into an integer pixel by truncating toward zero. */
  function Trunc(r: real): (n: int)
    ensures 0.0 <= r ==> 0 <= n && n as real <= r < n as real + 1.0
    ensures r < 0.0 ==> n <= 0 && n as real - 1.0 < r <= n as real
  {
    if r >= 0.0 then r.Floor else -((-r).Floor)
  }

  /** A whole-number coordinate passes through unchanged, whatever its sign. */
  lemma TruncOfWhole(n: int)
    ensures Trunc(n as real) == n
  {
  }

  datatype Vec2 = Vec2(x: real, y: real) {
    function Add(v: Vec2): Vec2 { Vec2(x + v.x, y + v.y) }
    function Scale(k: real): Vec2 { Vec2(x * k, y * k) }
  }

  const Zero: Vec2 := Vec2(0.0, 0.0)

  datatype Rect = Rect(x: int, y: int, w: nat, h: nat) {
    function Right(): int { x + w }
    function Bottom(): int { y + h }
    function CenterX(): int { x + w / 2 }
    function CenterY(): int { y + h / 2 }

    /** `move_ip(d)`: each float component of the offset is truncated before it is added. */
    function Move(d: Vec2): Rect
    {
      Rect(x + Trunc(d.x), y + Trunc(d.y), w, h)
    }

    /** Assigning `rect.center = (cx, cy)`. */
    function WithCenter(cx: int, cy: int): Rect
    {
      Rect(cx - w / 2, cy - h / 2, w, h)
    }

    /** Assigning `rect.midtop = (cx, top)`. */
    function WithMidTop(cx: int, top: int): Rect
    {
      Rect(cx - w / 2, top, w, h)
    }

    /** `contains(o)`: `o` lies entirely inside this rectangle. */
    predicate Contains(o: Rect)
    {
      x <= o.x && o.Right() <= Right() && y <= o.y && o.Bottom() <= Bottom()
    }
  }

  /** Placing by the centre keeps the size and puts the centre pixel where asked. */
  lemma WithCenterPlacesCentre(r: Rect, cx: int, cy: int)
    ensures r.WithCenter(cx, cy).w == r.w && r.WithCenter(cx, cy).h == r.h
    ensures r.WithCenter(cx, cy).CenterX() == cx && r.WithCenter(cx, cy).CenterY() == cy
  {
  }

  /** Placing by the middle of the top edge keeps the size and centres the rectangle on `cx`. */
  lemma WithMidTopPlacesTop(r: Rect, cx: int, top: int)
    ensures r.WithMidTop(cx, top).w == r.w && r.WithMidTop(cx, top).h == r.h
    ensures r.WithMidTop(cx, top).CenterX() == cx && r.WithMidTop(cx, top).y == top
  {
  }

  /** `surface.get_rect(center=c)` for a `w` by `h` surface and a float centre. */
  function SurfaceRect(w: nat, h: nat, center: Vec2): (r: Rect)
    ensures r.w == w && r.h == h
    ensures r.CenterX() == Trunc(center.x) && r.CenterY() == Trunc(center.y)
  {
    Rect(0, 0, w, h).WithCenter(Trunc(center.x), Trunc(center.y))
  }

  /**
   * `a.colliderect(b)`: a rectangle with a zero side collides with nothing;
   * otherwise the two must overlap on an area, touching edges do not count.
   */
  predicate CollideRect(a: Rect, b: Rect)
  {
    a.w != 0 && a.h != 0 && b.w != 0 && b.h != 0 &&
    a.x < b.Right() && a.y < b.Bottom() && b.x < a.Right() && b.y < a.Bottom()
  }

  /** A move keeps the size and shifts every edge by the truncated offset. */
  lemma MoveShiftsEdges(r: Rect, d: Vec2)
    ensures r.Move(d).w == r.w && r.Move(d).h == r.h
    ensures r.Move(d).CenterX() == r.CenterX() + Trunc(d.x)
    ensures r.Move(d).Bottom() == r.Bottom() + Trunc(d.y)
  {
  }

  /** A move by an offset of less than one pixel in each direction leaves the rectangle where it is. */
  lemma {:induction false} SubPixelMoveIsLost(r: Rect, d: Vec2)
    requires -1.0 < d.x < 1.0 && -1.0 < d.y < 1.0
    ensures r.Move(d) == r
  {
    assert Trunc(d.x) == 0 && Trunc(d.y) == 0;
  }

  /**
   * Two rectangles centred on the same pixel: the one that is at least as
   * wide and as tall contains the other.
   */
  lemma {:induction false} CentredRectContains(bigW: nat, bigH: nat, w: nat, h: nat, cx: int, cy: int)
    requires w <= bigW && h <= bigH
    ensures Rect(0, 0, bigW, bigH).WithCenter(cx, cy).Contains(Rect(0, 0, w, h).WithCenter(cx, cy))
  {
    HalfMonotone(w, bigW);
    HalfMonotone(h, bigH);
  }

  /** Halving rounds down, yet both halves of a larger size are at least as large. */
  lemma HalfMonotone(a: nat, b: nat)
    requires a <= b
    ensures a / 2 <= b / 2 && a - a / 2 <= b - b / 2
  {
  }
}
