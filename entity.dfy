/**
 The entity model of the game: two-component vectors, SDL-style integer
 rectangles and the moving rectangles (paddles and ball) built from them.
 Single-precision floats are modelled as exact reals.
 */
module Entity {

  /** Rust's `i32 / 2`, which rounds toward zero (so `-25 / 2` is `-12`,
      where Dafny's Euclidean `-25 / 2` would be `-13`). */
  function Half(n: int): (r: int)
    ensures n >= 0 ==> 0 <= n - 2 * r <= 1
    ensures n < 0 ==> -1 <= n - 2 * r <= 0
  {
    if n >= 0 then n / 2 else -((-n) / 2)
  }

  /** `f32::abs`. */
  function Abs(v: real): (r: real)
    ensures r >= 0.0
    ensures r == v || r == -v
  {
    if v < 0.0 then -v else v
  }

  /** `f32::clamp`, which panics unless `lo <= hi`. */
  function Clamp(v: real, lo: real, hi: real): (r: real)
    requires lo <= hi
    ensures lo <= r <= hi
    ensures lo <= v <= hi ==> r == v
    ensures v < lo ==> r == lo
    ensures hi < v ==> r == hi
  {
    if v < lo then lo else if v > hi then hi else v
  }

  /** Positions and velocities. */
  datatype FVec = FVec(x: real, y: real)

  /** `FVec::zero`: the vector with both components zero. */
  function Zero(): (v: FVec)
    ensures v.x == 0.0 && v.y == 0.0
  {
    FVec(0.0, 0.0)
  }

  /** A rectangle size; SDL's `Rect::new` never stores a size below 1. */
  type Extent = n: int | 0 < n witness 1

  /** An SDL rectangle: top-left corner and size, in whole pixels. */
  datatype Rect = Rect(x: int, y: int, w: Extent, h: Extent)

  /** Whether the pixel at `(px, py)` lies inside `r`. */
  predicate Contains(r: Rect, px: int, py: int)
  {
    r.x <= px < r.x + r.w && r.y <= py < r.y + r.h
  }

  function Max(a: int, b: int): int
  {
    if a < b then b else a
  }

  /** SDL's `a & b != None`: the two rectangles share an area of positive
      size, that is, at least one pixel. When they do, the corner of that
      area (the larger of the two left edges and of the two top edges) is
      such a pixel. */
  predicate Intersects(a: Rect, b: Rect)
    ensures Intersects(a, b) ==>
              Contains(a, Max(a.x, b.x), Max(a.y, b.y)) && Contains(b, Max(a.x, b.x), Max(a.y, b.y))
    ensures forall px, py :: Contains(a, px, py) && Contains(b, px, py) ==> Intersects(a, b)
  {
    a.x < b.x + b.w && b.x < a.x + a.w &&
    a.y < b.y + b.h && b.y < a.y + a.h
  }

  /** A paddle or the ball: a local rectangle placed around `position`.
      Its datatype constructor is `RectObject::new`. */
  datatype RectObject = RectObject(rect: Rect, position: FVec, velocity: FVec)

  /** `RectObject::world_rect`: the local rectangle moved to the floored
      position; only the corner moves, the size is kept. */
  function WorldRect(o: RectObject): (r: Rect)
    ensures r.w == o.rect.w && r.h == o.rect.h
    ensures (r.x - o.rect.x) as real <= o.position.x < (r.x - o.rect.x + 1) as real
    ensures (r.y - o.rect.y) as real <= o.position.y < (r.y - o.rect.y + 1) as real
  {
    Rect(o.position.x.Floor + o.rect.x, o.position.y.Floor + o.rect.y, o.rect.w, o.rect.h)
  }

  /** One Euler step of `o`'s position by its velocity over `dt`. */
  function Advance(o: RectObject, dt: real): (r: RectObject)
    ensures r.rect == o.rect && r.velocity == o.velocity
    ensures r.position.x - o.position.x == o.velocity.x * dt
    ensures r.position.y - o.position.y == o.velocity.y * dt
  {
    o.(position := FVec(o.position.x + o.velocity.x * dt, o.position.y + o.velocity.y * dt))
  }

  /** Two steps in a row travel as far as one step of the summed length. */
  lemma AdvanceAdditive(o: RectObject, dt1: real, dt2: real)
    ensures Advance(Advance(o, dt1), dt2) == Advance(o, dt1 + dt2)
  {
    assert o.velocity.x * dt1 + o.velocity.x * dt2 == o.velocity.x * (dt1 + dt2);
    assert o.velocity.y * dt1 + o.velocity.y * dt2 == o.velocity.y * (dt1 + dt2);
  }
}
