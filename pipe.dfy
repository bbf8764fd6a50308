/**
 * One obstacle: a pair of pipes with a vertical gap (PipePair,
 * bird.py:90-115). Only its horizontal position and its one-shot scored
 * flag change after it is created.
 */
module Pipes {
  import opened Screen
  import opened Geometry

  /** Width of both pipes, bird.py:95. */
  const PipeWidth: int := 80

  /** The state of a pipe pair as a value. */
  datatype PipeVal = PipeVal(x: real, gapY: int, gapH: int, scored: bool)
  {
    /** PipePair.update: the pair scrolls left by speed * dt; nothing else moves. */
    function Advance(dt: real, speed: real): (r: PipeVal)
      ensures r.x == x - speed * dt
      ensures r.gapY == gapY && r.gapH == gapH && r.scored == scored
      ensures dt >= 0.0 && speed >= 0.0 ==> r.x <= x
    {
      this.(x := x - speed * dt)
    }

    /** PipePair.offscreen: the right edge has left the window. */
    predicate Offscreen()
    {
      x + PipeWidth as real < 0.0
    }

    /** Top of the bottom pipe: the gap centre plus half the gap (floor division). */
    function BottomY(): int
    {
      gapY + gapH / 2
    }

    /**
     * PipePair.rects: the top pipe from the window's top edge down to the
     * gap, the bottom pipe from the gap down to the ground line; both at the
     * truncated position and the fixed width, and never of negative height.
     */
    function Rects(): (r: (Rect, Rect))
      ensures r.0.x == Trunc(x) && r.1.x == Trunc(x)
      ensures r.0.w == PipeWidth && r.1.w == PipeWidth
      ensures r.0.y == 0 && r.1.y == BottomY()
      ensures r.0.h >= 0 && r.1.h >= 0
      ensures gapY - gapH / 2 >= 0 ==> r.0.h == gapY - gapH / 2
      ensures gapY - gapH / 2 < 0 ==> r.0.h == 0
      ensures BottomY() <= GroundY ==> r.1.y + r.1.h == GroundY
      ensures BottomY() > GroundY ==> r.1.h == 0
      ensures gapY >= 0 && gapH >= 0 ==> r.0.y + r.0.h <= r.1.y
    {
      var topH := IMax(0, gapY - gapH / 2);
      var botY := gapY + gapH / 2;
      var botH := IMax(0, ScreenHeight - botY - GroundMargin);
      (Rect(Trunc(x), 0, PipeWidth, topH), Rect(Trunc(x), botY, PipeWidth, botH))
    }

    /** PipePair.collides: the rectangle hits either pipe. */
    predicate Collides(r: Rect)
    {
      Overlaps(r, Rects().0) || Overlaps(r, Rects().1)
    }
  }

  /** A scrolled-off pair stays off screen as it keeps scrolling left. */
  lemma OffscreenStays(p: PipeVal, dt: real, speed: real)
    requires p.Offscreen() && dt >= 0.0 && speed >= 0.0
    ensures p.Advance(dt, speed).Offscreen()
  {
    assert speed * dt >= 0.0;
  }

  /** A rectangle that lies vertically within the gap hits neither pipe. */
  lemma ClearThroughGap(p: PipeVal, r: Rect)
    requires r.w >= 0 && r.h >= 0
    requires r.y >= p.gapY - p.gapH / 2 && r.y + r.h <= p.BottomY()
    ensures !p.Collides(r)
  {
  }

  /** A rectangle entirely left or right of the pair hits neither pipe. */
  lemma ClearBeside(p: PipeVal, r: Rect)
    requires r.w >= 0 && r.h >= 0
    requires r.x + r.w <= Trunc(p.x) || r.x >= Trunc(p.x) + PipeWidth
    ensures !p.Collides(r)
  {
  }

  /**
   * A rectangle that overlaps the pair horizontally and reaches above the
   * gap hits the top pipe.
   */
  lemma HitAboveGap(p: PipeVal, r: Rect)
    requires r.w > 0 && r.h > 0 && p.gapY - p.gapH / 2 > 0
    requires r.x < Trunc(p.x) + PipeWidth && Trunc(p.x) < r.x + r.w
    requires r.y < p.gapY - p.gapH / 2 && r.y + r.h > 0
    ensures p.Collides(r)
  {
  }

  /** A pipe pair object (PipePair); x and scored are updated in place. */
  class PipePair {
    var x: real
    const gapY: int
    const gapH: int
    var scored: bool

    function Val(): PipeVal
      reads this
    {
      PipeVal(x, gapY, gapH, scored)
    }

    constructor (x: real, gapY: int, gapH: int)
      ensures Val() == PipeVal(x, gapY, gapH, false)
    {
      this.x := x;
      this.gapY := gapY;
      this.gapH := gapH;
      this.scored := false;
    }

    /** PipePair.update */
    method Update(dt: real, speed: real)
      modifies this
      ensures Val() == old(Val()).Advance(dt, speed)
    {
      x := x - speed * dt;
    }
  }
}
