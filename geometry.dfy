/**
 * Integer rectangles and the two numeric conversions the game relies on:
 * Python's int() on a float, and pygame's Rect.colliderect.
 */
module Geometry {
  /** An axis-aligned rectangle as pygame.Rect holds it: top-left corner and size. */
  datatype Rect = Rect(x: int, y: int, w: int, h: int)

  /**
   * Python's int() on a float: truncation toward zero, which is the floor
   * for non-negative values and the ceiling for negative ones.
   */
  function Trunc(r: real): (t: int)
    ensures r >= 0.0 ==> t as real <= r < t as real + 1.0
    ensures r < 0.0 ==> t as real - 1.0 < r <= t as real
  {
    if r >= 0.0 then r.Floor else -((-r).Floor)
  }

  function IMin(a: int, b: int): int { if a <= b then a else b }
  function IMax(a: int, b: int): int { if a >= b then a else b }

  /**
   * Rect.colliderect in pygame 2: a rectangle of zero width or height
   * collides with nothing; otherwise the spans must overlap strictly on both
   * axes (touching edges do not collide). A negative size spans leftward/upward.
   */
  predicate Overlaps(a: Rect, b: Rect)
  {
    a.w != 0 && a.h != 0 && b.w != 0 && b.h != 0 &&
    IMin(a.x, a.x + a.w) < IMax(b.x, b.x + b.w) &&
    IMin(a.y, a.y + a.h) < IMax(b.y, b.y + b.h) &&
    IMax(a.x, a.x + a.w) > IMin(b.x, b.x + b.w) &&
    IMax(a.y, a.y + a.h) > IMin(b.y, b.y + b.h)
  }

  /** The unit cell whose top-left corner is (px, py) lies inside r (sizes non-negative). */
  predicate Covers(r: Rect, px: int, py: int)
  {
    r.x <= px < r.x + r.w && r.y <= py < r.y + r.h
  }

  /** Collision does not depend on which rectangle asks. */
  lemma OverlapsSymmetric(a: Rect, b: Rect)
    ensures Overlaps(a, b) <==> Overlaps(b, a)
  {
  }

  /**
   * For rectangles of non-negative size, colliderect holds exactly when the
   * two rectangles share at least one unit cell.
   */
  lemma OverlapsIffSharedCell(a: Rect, b: Rect)
    requires a.w >= 0 && a.h >= 0 && b.w >= 0 && b.h >= 0
    ensures Overlaps(a, b) <==> exists px, py :: Covers(a, px, py) && Covers(b, px, py)
  {
    if Overlaps(a, b) {
      var px := IMax(a.x, b.x);
      var py := IMax(a.y, b.y);
      assert Covers(a, px, py) && Covers(b, px, py);
    }
    if exists px, py :: Covers(a, px, py) && Covers(b, px, py) {
      var px, py :| Covers(a, px, py) && Covers(b, px, py);
      assert Overlaps(a, b);
    }
  }
}
