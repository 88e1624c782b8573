/**
 * The layout constants of the compositor. The repository's `constants` module
 * is not part of this model: the canvas width and height take the values that
 * src/App.tsx declares for them, and the title-band height and the divider
 * width are only known to be positive.
 */
module Constants {

  type PosReal = r: real | r > 0.0 witness 1.0

  const CANVAS_WIDTH: PosReal := 1344.0
  const CANVAS_HEIGHT: PosReal := 768.0

  /** Height of the optional title band above the images. */
  const TOP_TEXT_AREA_HEIGHT: PosReal

  /** Width of a divider bar between two slices. */
  const DIVIDER_WIDTH: PosReal
}
