/** The screen geometry of eternity_background/scripts/constants.py. */
module Constants {

  const SCREEN_W: int := 1600
  const SCREEN_H: int := 900

  /**
   * `SCREEN_LENGTH` is the screen diagonal `sqrt(SCREEN_W**2 + SCREEN_H**2)`,
   * a float; the only use of it puts it into a `Rect`, which keeps the
   * truncated whole number of pixels.
   */
  const SCREEN_LENGTH_PX: nat := 1835

  /** 1835 is the whole part of the diagonal: its square fits, the next one does not. */
  lemma ScreenLengthIsTruncatedDiagonal()
    ensures SCREEN_LENGTH_PX * SCREEN_LENGTH_PX <= SCREEN_W * SCREEN_W + SCREEN_H * SCREEN_H
    ensures SCREEN_W * SCREEN_W + SCREEN_H * SCREEN_H < (SCREEN_LENGTH_PX + 1) * (SCREEN_LENGTH_PX + 1)
  {
  }
}
