/**
 * Window dimensions shared by every part of the game (bird.py:8-9).
 * The window is half of a 1024 x 1536 canvas.
 */
module Screen {
  const ScreenWidth: int := 1024 / 2
  const ScreenHeight: int := 1536 / 2
  /** The ground strip at the bottom of the window is 30 high (bird.py:161). */
  const GroundMargin: int := 30
  /** The ground line: pipes end on it and the bird lands on it. */
  const GroundY: int := ScreenHeight - GroundMargin
}
