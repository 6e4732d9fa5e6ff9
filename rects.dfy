/**
 * Integer axis-aligned rectangles with the pygame `Rect` operations the games rely on:
 * `colliderect`, `contains`, `clamp_ip`, `move_ip` and the edge/centre setters.
 * Sizes are non-negative; every rectangle the games build has a positive size.
 */
module Rects {

  datatype Rect = Rect(x: int, y: int, w: nat, h: nat)

  function Right(r: Rect): int { r.x + r.w }
  function Bottom(r: Rect): int { r.y + r.h }
  function CenterX(r: Rect): int { r.x + r.w / 2 }
  function CenterY(r: Rect): int { r.y + r.h / 2 }

  /** `move_ip(dx, dy)`: translate in place. */
  function Translate(r: Rect, dx: int, dy: int): (t: Rect)
    ensures t.w == r.w && t.h == r.h
    ensures t.x - r.x == dx && t.y - r.y == dy
  {
    r.(x := r.x + dx, y := r.y + dy)
  }

  /** Moving back by the opposite offsets restores the rectangle, and moves compose by adding offsets. */
  lemma TranslateInverse(r: Rect, dx: int, dy: int, ex: int, ey: int)
    ensures Translate(Translate(r, dx, dy), -dx, -dy) == r
    ensures Translate(Translate(r, dx, dy), ex, ey) == Translate(r, dx + ex, dy + ey)
  {
  }

  /** Assigning `rect.center`: the size is kept and the centre lands on (cx, cy). */
  function WithCenter(r: Rect, cx: int, cy: int): (t: Rect)
    ensures t.w == r.w && t.h == r.h
    ensures CenterX(t) == cx && CenterY(t) == cy
  {
    r.(x := cx - r.w / 2, y := cy - r.h / 2)
  }

  /**
   * `colliderect`: the interiors of the two (half-open) rectangles overlap.
   * A rectangle of zero width or height collides with nothing.
   */
  predicate CollideRect(a: Rect, b: Rect)
  {
    a.w > 0 && a.h > 0 && b.w > 0 && b.h > 0 &&
    a.x < Right(b) && b.x < Right(a) &&
    a.y < Bottom(b) && b.y < Bottom(a)
  }

  /** `container.contains(r)`: r lies entirely inside the container. */
  predicate Contains(container: Rect, r: Rect)
  {
    container.x <= r.x && container.y <= r.y &&
    Right(r) <= Right(container) && Bottom(r) <= Bottom(container) &&
    r.x < Right(container) && r.y < Bottom(container)
  }

  /**
   * One axis of `clamp_ip`: a segment at least as long as the container is centred on
   * it; otherwise the segment is shifted the least distance that brings it inside.
   */
  function ClampAxis(pos: int, size: nat, cpos: int, csize: nat): (p: int)
    ensures size <= csize ==> cpos <= p && p + size <= cpos + csize
    ensures size < csize && cpos <= pos && pos + size <= cpos + csize ==> p == pos
    ensures size < csize && pos < cpos ==> p == cpos
    ensures size < csize && pos + size > cpos + csize ==> p + size == cpos + csize
  {
    if size >= csize then cpos + csize / 2 - size / 2
    else if pos < cpos then cpos
    else if pos + size > cpos + csize then cpos + csize - size
    else pos
  }

  /** `r.clamp_ip(container)`: move r (never resize it) so that it lies inside the container. */
  function ClampIp(r: Rect, container: Rect): (t: Rect)
    ensures t.w == r.w && t.h == r.h
    ensures r.w <= container.w && r.h <= container.h && r.w > 0 && r.h > 0 ==> Contains(container, t)
    ensures r.w < container.w && r.h < container.h && Contains(container, r) ==> t == r
  {
    r.(x := ClampAxis(r.x, r.w, container.x, container.w),
       y := ClampAxis(r.y, r.h, container.y, container.h))
  }

  /** True when r lies on at least one edge of the container. */
  predicate TouchesEdge(container: Rect, r: Rect)
  {
    r.x == container.x || Right(r) == Right(container) ||
    r.y == container.y || Bottom(r) == Bottom(container)
  }

  lemma CollideRectSymmetric(a: Rect, b: Rect)
    ensures CollideRect(a, b) <==> CollideRect(b, a)
  {
  }

  /**
   * A rectangle that fits in the container but was not inside it ends up, once clamped,
   * flush against at least one edge of the container.
   */
  lemma {:induction false} ClampedRectTouchesEdge(r: Rect, container: Rect)
    requires 0 < r.w <= container.w && 0 < r.h <= container.h
    requires !Contains(container, r)
    ensures TouchesEdge(container, ClampIp(r, container))
  {
    var t := ClampIp(r, container);
    if r.w == container.w {
      assert t.x == container.x;
    } else if r.h == container.h {
      assert t.y == container.y;
    } else if r.x < container.x {
      assert t.x == container.x;
    } else if Right(r) > Right(container) {
      assert Right(t) == Right(container);
    } else if r.y < container.y {
      assert t.y == container.y;
    } else {
      assert Bottom(r) > Bottom(container);
      assert Bottom(t) == Bottom(container);
    }
  }
}
