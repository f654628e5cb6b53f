// Screen constants, rectangles and the pipe pair built by create_pipe (game.py:9-45).
module Geometry {

  const Width: int := 800
  const Height: int := 400
  const BirdWidth: int := 40
  const BirdHeight: int := 30
  /** The bird's fixed column, WIDTH // 6. */
  const BirdX: int := Width / 6
  const BirdBaseSpeed: int := 6
  const PipeWidth: int := 70
  /** randint's lower bound for the top segment, and the margin it keeps below the bottom segment's top. */
  const Margin: int := 50

  /** A pygame.Rect with integer coordinates. */
  datatype Rect = Rect(x: int, y: int, w: int, h: int)
  {
    function Right(): int { x + w }
    function Bottom(): int { y + h }

    /** Rect.move(dx, dy): a copy moved by the offsets, same size. */
    function Move(dx: int, dy: int): Rect { Rect(x + dx, y + dy, w, h) }
  }

  /**
   * The bird's rectangle. Its top is the bird's position itself, a real: pygame's
   * coercion of a float coordinate into an integer one is not part of this model.
   */
  datatype BirdRect = BirdRect(left: int, top: real, width: int, height: int)
  {
    function Bottom(): real { top + height as real }
  }

  function BirdAt(y: real): BirdRect
  {
    BirdRect(BirdX, y, BirdWidth, BirdHeight)
  }

  /** The range randint(50, HEIGHT - gap - 50) draws the top segment's height from. */
  predicate OffsetFits(gap: int, h: int)
  {
    Margin <= h <= Height - gap - Margin
  }

  /**
   * create_pipe(gap) once randint has drawn `h`: a top segment hanging from the
   * ceiling and a bottom segment standing on the floor, `gap` apart, both at the
   * right edge of the screen.
   */
  function CreatePipe(gap: int, h: int): (pair: (Rect, Rect))
    requires OffsetFits(gap, h)
    ensures pair.0.x == Width && pair.1.x == Width
    ensures pair.0.w == PipeWidth && pair.1.w == PipeWidth
    ensures pair.0.y == 0 && pair.0.Bottom() == h
    ensures pair.1.y == pair.0.Bottom() + gap
    ensures pair.1.Bottom() == Height
    ensures pair.0.h >= Margin && pair.1.h >= Margin
  {
    (Rect(Width, 0, PipeWidth, h), Rect(Width, h + gap, PipeWidth, Height - h - gap))
  }
}
