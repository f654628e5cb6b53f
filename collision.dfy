// The pipe collision test and the out-of-bounds test of a frame (game.py:115-126).
module Collision {
  import opened Geometry

  /**
   * bird_rect.colliderect(pipe). The rule lives in pygame and is taken here as an
   * assumption: a rectangle of zero width or height collides with nothing, and
   * otherwise the two half-open areas [left, right) x [top, bottom) must overlap.
   */
  predicate Collides(b: BirdRect, r: Rect)
  {
    b.width != 0 && b.height != 0 && r.w != 0 && r.h != 0 &&
    b.left < r.Right() && r.x < b.left + b.width &&
    b.top < r.Bottom() as real && (r.y as real) < b.Bottom()
  }

  predicate AnyCollides(b: BirdRect, pipes: seq<Rect>)
  {
    exists i :: 0 <= i < |pipes| && Collides(b, pipes[i])
  }

  /** The loop over `pipes` that stops at the first pipe the bird touches. */
  method FindCollision(b: BirdRect, pipes: seq<Rect>) returns (hit: bool)
    ensures hit <==> AnyCollides(b, pipes)
  {
    hit := false;
    var i := 0;
    while i < |pipes|
      invariant 0 <= i <= |pipes|
      invariant forall j :: 0 <= j < i ==> !Collides(b, pipes[j])
    {
      if Collides(b, pipes[i]) {
        hit := true;
        break;
      }
      i := i + 1;
    }
  }

  /** bird_rect.top < 0 or bird_rect.bottom > HEIGHT; the pipes play no part. */
  predicate OutOfBounds(b: BirdRect)
  {
    b.top < 0.0 || b.Bottom() > Height as real
  }

  /** The bird trips the bounds check exactly when its top leaves [0, 370]. */
  lemma BoundsWindow(y: real)
    ensures OutOfBounds(BirdAt(y)) <==> (y < 0.0 || y > (Height - BirdHeight) as real)
  {
  }

  /**
   * A bird whose whole height lies inside a pair's gap touches neither segment,
   * wherever the pair has scrolled to. With a half-open rule a bird whose bottom
   * edge rests exactly on the bottom segment's top does not collide.
   */
  lemma InsideGapIsSafe(gap: int, h: int, y: real, dx: int)
    requires OffsetFits(gap, h)
    requires h as real <= y && y + BirdHeight as real <= (h + gap) as real
    ensures !Collides(BirdAt(y), CreatePipe(gap, h).0.Move(dx, 0))
    ensures !Collides(BirdAt(y), CreatePipe(gap, h).1.Move(dx, 0))
  {
  }
}
