/**
 * An abstract 2D canvas. The browser's canvas API is not part of this model:
 * a `Context` keeps the drawing state the compositor sets (styles, font, text
 * alignment, the clip and the save/restore stack) and, instead of pixels, a
 * log of the draw commands issued since the bitmap was last cleared. Each
 * command records the parts of the state that affect what it draws.
 */
module Canvas2D {

  datatype Color = White | Black

  datatype TextAlign = Start | End | Left | Right | Center

  datatype TextBaseline = Top | Hanging | Middle | Alphabetic | Ideographic | Bottom

  /** A CSS font such as `bold 24px Arial`. */
  datatype Font = Font(bold: bool, size: real, family: string)

  datatype Rect = Rect(x: real, y: real, w: real, h: real)

  /**
   * A loaded (or loading) picture: which picture it is and whether it has
   * finished loading and can be drawn. A picture whose load failed is not
   * modelled.
   */
  datatype Image = Image(id: int, complete: bool)

  /** Text metrics of the font engine: the width of `text` drawn in a font. */
  type Measure = (Font, string) -> real

  datatype Op =
    | FillRect(rect: Rect, fill: Color)
      /** The whole source picture, scaled onto `dest`. */
    | DrawImage(image: Image, dest: Rect)
    | FillText(text: string, x: real, y: real, fill: Color, font: Font,
               align: TextAlign, baseline: TextBaseline)
    | StrokeText(text: string, x: real, y: real, stroke: Color, lineWidth: real, font: Font,
                 align: TextAlign, baseline: TextBaseline)

  /** A draw operation and the clip rectangles (intersected) in force when it ran. */
  datatype Cmd = Cmd(op: Op, clip: seq<Rect>)

  /** What `save()` pushes and `restore()` pops. */
  datatype Saved = Saved(fillStyle: Color, strokeStyle: Color, lineWidth: real, font: Font,
                         textAlign: TextAlign, textBaseline: TextBaseline, clip: seq<Rect>)

  /** The state of a freshly reset context (the HTML canvas defaults). */
  const DefaultFont := Font(false, 10.0, "sans-serif")

  class Context {
    var fillStyle: Color
    var strokeStyle: Color
    var lineWidth: real
    var font: Font
    var textAlign: TextAlign
    var textBaseline: TextBaseline
    var clip: seq<Rect>
    var stack: seq<Saved>
    var log: seq<Cmd>
    const measure: Measure

    ghost predicate IsReset()
      reads this
    {
      && fillStyle == Black && strokeStyle == Black && lineWidth == 1.0
      && font == DefaultFont && textAlign == Start && textBaseline == Alphabetic
      && clip == [] && stack == [] && log == []
    }

    constructor (measure: Measure)
      ensures IsReset() && this.measure == measure
    {
      this.measure := measure;
      fillStyle, strokeStyle, lineWidth := Black, Black, 1.0;
      font, textAlign, textBaseline := DefaultFont, Start, Alphabetic;
      clip, stack, log := [], [], [];
    }

    /** What resizing the canvas does to its context: default state, cleared bitmap. */
    method Reset()
      modifies this
      ensures IsReset()
    {
      fillStyle, strokeStyle, lineWidth := Black, Black, 1.0;
      font, textAlign, textBaseline := DefaultFont, Start, Alphabetic;
      clip, stack, log := [], [], [];
    }

    function Snapshot(): Saved
      reads this
    {
      Saved(fillStyle, strokeStyle, lineWidth, font, textAlign, textBaseline, clip)
    }

    /** `measureText(text).width` in the current font. */
    function MeasureText(text: string): real
      reads this
    {
      measure(font, text)
    }

    method Save()
      modifies this`stack
      ensures stack == old(stack) + [old(Snapshot())]
    {
      stack := stack + [Snapshot()];
    }

    /** Pops the saved state; with nothing saved it does nothing. */
    method Restore()
      modifies this
      ensures log == old(log)
      ensures old(stack) == [] ==> stack == [] && Snapshot() == old(Snapshot())
      ensures old(stack) != [] ==>
        stack == old(stack)[..|old(stack)| - 1] && Snapshot() == old(stack)[|old(stack)| - 1]
    {
      if stack != [] {
        var s := stack[|stack| - 1];
        fillStyle, strokeStyle, lineWidth := s.fillStyle, s.strokeStyle, s.lineWidth;
        font, textAlign, textBaseline := s.font, s.textAlign, s.textBaseline;
        clip := s.clip;
        stack := stack[..|stack| - 1];
      }
    }

    /** `beginPath(); rect(r); clip()`: the clip region becomes its intersection with `r`. */
    method ClipRect(r: Rect)
      modifies this`clip
      ensures clip == old(clip) + [r]
    {
      clip := clip + [r];
    }

    /** Assigning `lineWidth`: values that are not positive are ignored. */
    method SetLineWidth(w: real)
      modifies this`lineWidth
      ensures lineWidth == if w > 0.0 then w else old(lineWidth)
    {
      if w > 0.0 {
        lineWidth := w;
      }
    }

    method FillRect(r: Rect)
      modifies this`log
      ensures log == old(log) + [Cmd(Op.FillRect(r, fillStyle), clip)]
    {
      log := log + [Cmd(Op.FillRect(r, fillStyle), clip)];
    }

    method DrawImage(image: Image, dest: Rect)
      modifies this`log
      ensures log == old(log) + [Cmd(Op.DrawImage(image, dest), clip)]
    {
      log := log + [Cmd(Op.DrawImage(image, dest), clip)];
    }

    method FillText(text: string, x: real, y: real)
      modifies this`log
      ensures log == old(log) + [Cmd(Op.FillText(text, x, y, fillStyle, font, textAlign, textBaseline), clip)]
    {
      log := log + [Cmd(Op.FillText(text, x, y, fillStyle, font, textAlign, textBaseline), clip)];
    }

    method StrokeText(text: string, x: real, y: real)
      modifies this`log
      ensures log == old(log) +
        [Cmd(Op.StrokeText(text, x, y, strokeStyle, lineWidth, font, textAlign, textBaseline), clip)]
    {
      log := log + [Cmd(Op.StrokeText(text, x, y, strokeStyle, lineWidth, font, textAlign, textBaseline), clip)];
    }
  }

  /** A canvas element: its size and its 2D context (absent when the browser gives none). */
  class Canvas {
    var width: real
    var height: real
    const context: Context?

    constructor (width: real, height: real, context: Context?)
      ensures this.width == width && this.height == height && this.context == context
    {
      this.width, this.height, this.context := width, height, context;
    }

    /** Assigning `canvas.width` or `canvas.height` resets the context and clears the bitmap. */
    method Resize(w: real, h: real)
      requires context != null
      modifies this, context
      ensures width == w && height == h && context.IsReset()
    {
      width := w;
      context.Reset();
      height := h;
      context.Reset();
    }
  }
}
