/**
 * Text helpers of the compositor (src/canvas/textUtils.ts): choosing a font
 * size by shrinking an estimate in steps of 2 until the text fits, and drawing
 * outlined text as a stroke followed by a fill.
 */
module TextUtils {
  import opened Wrappers
  import opened Canvas2D

  const DEFAULT_MAX_FONT_SIZE: real := 48.0
  const DEFAULT_MIN_FONT_SIZE: real := 12.0
  const DEFAULT_FONT_FAMILY: string := "Arial"

  /** The optional settings of the fitting routine; `None` takes the default. */
  datatype FitOptions = FitOptions(maxFontSize: Option<real>, minFontSize: Option<real>,
                                   fontFamily: Option<string>)

  const NoFitOptions := FitOptions(None, None, None)

  /** The optional settings of outlined text; `None` takes the default. */
  datatype StrokeOptions = StrokeOptions(fillStyle: Option<Color>, strokeStyle: Option<Color>,
                                         lineWidth: Option<real>, textAlign: Option<TextAlign>,
                                         textBaseline: Option<TextBaseline>)

  const NoStrokeOptions := StrokeOptions(None, None, None, None, None)

  /** The font every fitted text uses: bold, in the given size and family. */
  function BoldFont(size: real, family: string): Font {
    Font(true, size, family)
  }

  function Min(a: real, b: real): real {
    if a <= b then a else b
  }

  /**
   * The first guess: the size at which each character, taken as 0.6 of the
   * size wide, would fill `maxWidth`, but never above `maxFontSize`. For empty
   * text the division yields Infinity in the source, so the guess is `maxFontSize`.
   */
  function Estimate(text: string, maxWidth: real, maxFontSize: real): (e: real)
    ensures e <= maxFontSize
    ensures e == maxFontSize || (|text| > 0 && e * (|text| as real * 0.6) == maxWidth)
    ensures |text| > 0 && maxWidth <= maxFontSize * (|text| as real * 0.6) ==>
      e * (|text| as real * 0.6) == maxWidth
  {
    if |text| == 0 then maxFontSize else Min(maxFontSize, maxWidth / (|text| as real * 0.6))
  }

  /** The measured width of `text` at `size` is within `maxWidth`. */
  predicate Fits(measure: Measure, text: string, family: string, maxWidth: real, size: real) {
    measure(BoldFont(size, family), text) <= maxWidth
  }

  /** The shrink loop stops at `size`: the text fits, or the size is at the minimum or below. */
  predicate Stops(measure: Measure, text: string, family: string, maxWidth: real, minSize: real,
                  size: real)
  {
    Fits(measure, text, family, maxWidth, size) || size <= minSize
  }

  /** The size after `k` steps of the shrink loop started at `size`. */
  function StepSize(size: real, k: nat): real {
    size - 2.0 * k as real
  }

  /** The shrink loop as a function: lower `size` by 2 until it stops. */
  function Shrink(measure: Measure, text: string, family: string, maxWidth: real, minSize: real,
                  size: real): (r: real)
    decreases if size > minSize then (size - minSize).Floor + 1 else 0
    ensures r <= size
    ensures Stops(measure, text, family, maxWidth, minSize, r)
    ensures size > minSize ==> minSize - 2.0 < r
  {
    if Stops(measure, text, family, maxWidth, minSize, size) then size
    else Shrink(measure, text, family, maxWidth, minSize, size - 2.0)
  }

  /** The shrink loop takes some number `k` of steps, and it does not stop before step `k`. */
  lemma {:induction false} ShrinkSteps(measure: Measure, text: string, family: string,
                                       maxWidth: real, minSize: real, size: real)
    decreases if size > minSize then (size - minSize).Floor + 1 else 0
    ensures exists k: nat :: (Shrink(measure, text, family, maxWidth, minSize, size) == StepSize(size, k)
      && forall j: nat :: j < k ==> !Stops(measure, text, family, maxWidth, minSize, StepSize(size, j)))
  {
    if Stops(measure, text, family, maxWidth, minSize, size) {
      assert Shrink(measure, text, family, maxWidth, minSize, size) == StepSize(size, 0);
    } else {
      var next := size - 2.0;
      ShrinkSteps(measure, text, family, maxWidth, minSize, next);
      var k: nat :| Shrink(measure, text, family, maxWidth, minSize, next) == StepSize(next, k)
        && forall j: nat :: j < k ==> !Stops(measure, text, family, maxWidth, minSize, StepSize(next, j));
      assert Shrink(measure, text, family, maxWidth, minSize, size) == StepSize(size, k + 1);
      forall j: nat | j < k + 1
        ensures !Stops(measure, text, family, maxWidth, minSize, StepSize(size, j))
      {
        if j > 0 {
          assert StepSize(size, j) == StepSize(next, j - 1);
        }
      }
    }
  }

  /**
   * The loop's result is determined by where it first stops: if the loop does
   * not stop in the first `k` steps and stops at step `k`, the result is the
   * size after `k` steps.
   */
  lemma {:induction false} ShrinkIsFirstStop(measure: Measure, text: string, family: string,
                                             maxWidth: real, minSize: real, size: real, k: nat)
    requires forall j: nat :: j < k ==> !Stops(measure, text, family, maxWidth, minSize, StepSize(size, j))
    requires Stops(measure, text, family, maxWidth, minSize, StepSize(size, k))
    ensures Shrink(measure, text, family, maxWidth, minSize, size) == StepSize(size, k)
    decreases k
  {
    if k > 0 {
      assert !Stops(measure, text, family, maxWidth, minSize, StepSize(size, 0));
      var next := size - 2.0;
      forall j: nat | j < k - 1
        ensures !Stops(measure, text, family, maxWidth, minSize, StepSize(next, j))
      {
        assert StepSize(next, j) == StepSize(size, j + 1);
      }
      assert StepSize(next, k - 1) == StepSize(size, k);
      ShrinkIsFirstStop(measure, text, family, maxWidth, minSize, next, k - 1);
    }
  }

  function MaxFontSizeOf(opts: FitOptions): real { opts.maxFontSize.GetOr(DEFAULT_MAX_FONT_SIZE) }
  function MinFontSizeOf(opts: FitOptions): real { opts.minFontSize.GetOr(DEFAULT_MIN_FONT_SIZE) }
  function FamilyOf(opts: FitOptions): string { opts.fontFamily.GetOr(DEFAULT_FONT_FAMILY) }

  /** The estimate the fitting routine starts from. */
  function InitialSize(text: string, maxWidth: real, opts: FitOptions): real {
    Estimate(text, maxWidth, MaxFontSizeOf(opts))
  }

  /** What `getFontSizeToFit` returns. */
  function FontSizeToFit(measure: Measure, text: string, maxWidth: real, opts: FitOptions): (r: real)
    ensures r <= MaxFontSizeOf(opts)
  {
    var size := Shrink(measure, text, FamilyOf(opts), maxWidth, MinFontSizeOf(opts),
                       InitialSize(text, maxWidth, opts));
    Min(size, MaxFontSizeOf(opts))
  }

  /**
   * The promises of the fitting routine: the result is the estimate lowered by
   * a whole number of steps of 2; at the result the text fits or the size is at
   * the minimum or below; an estimate that already stops is returned as it is;
   * an estimate above the minimum ends strictly above `minFontSize - 2`.
   */
  lemma FitBounds(measure: Measure, text: string, maxWidth: real, opts: FitOptions)
    ensures var r, e := FontSizeToFit(measure, text, maxWidth, opts), InitialSize(text, maxWidth, opts);
      && r <= e
      && (exists k: nat :: r == StepSize(e, k))
      && Stops(measure, text, FamilyOf(opts), maxWidth, MinFontSizeOf(opts), r)
      && (Stops(measure, text, FamilyOf(opts), maxWidth, MinFontSizeOf(opts), e) ==> r == e)
      && (e > MinFontSizeOf(opts) ==> MinFontSizeOf(opts) - 2.0 < r)
  {
    ShrinkSteps(measure, text, FamilyOf(opts), maxWidth, MinFontSizeOf(opts),
                InitialSize(text, maxWidth, opts));
  }

  /**
   * Contrary to the routine's doc comment, the result can be below
   * `minFontSize`: ten characters in 30 units estimate 5, which is returned
   * unchanged whatever the text measures.
   */
  lemma FitMayFallBelowMinimum(measure: Measure)
    ensures FontSizeToFit(measure, "horsemanes", 30.0, NoFitOptions) == 5.0 < DEFAULT_MIN_FONT_SIZE
  {
    assert InitialSize("horsemanes", 30.0, NoFitOptions) == 5.0;
  }

  /**
   * The fitted size is not monotone in the available width, even for text
   * whose measured width grows linearly with the size: the shrink loop steps
   * down by 2 from an estimate that itself moves with the width. With 6.5
   * units per point, ten characters fit 156 units at 24 but 156.6 units only
   * at 22.1.
   */
  lemma FitNotMonotoneInWidth()
    ensures var measure: Measure := (f: Font, t: string) => 6.5 * f.size;
      FontSizeToFit(measure, "horsemanes", 156.6, NoFitOptions)
        < FontSizeToFit(measure, "horsemanes", 156.0, NoFitOptions)
  {
    var measure: Measure := (f: Font, t: string) => 6.5 * f.size;
    var text, family := "horsemanes", DEFAULT_FONT_FAMILY;
    assert InitialSize(text, 156.0, NoFitOptions) == 26.0;
    assert Shrink(measure, text, family, 156.0, DEFAULT_MIN_FONT_SIZE, 24.0) == 24.0;
    assert InitialSize(text, 156.6, NoFitOptions) == 26.1;
    assert Shrink(measure, text, family, 156.6, DEFAULT_MIN_FONT_SIZE, 22.1) == 22.1;
    assert Shrink(measure, text, family, 156.6, DEFAULT_MIN_FONT_SIZE, 24.1) == 22.1;
  }

  /**
   * `getFontSizeToFit`: sets the context's font while it measures, and leaves
   * it at the returned size.
   */
  method GetFontSizeToFit(ctx: Context, text: string, maxWidth: real, opts: FitOptions)
    returns (fontSize: real)
    modifies ctx`font
    ensures fontSize == FontSizeToFit(ctx.measure, text, maxWidth, opts)
    ensures ctx.font == BoldFont(fontSize, FamilyOf(opts))
  {
    var maxFontSize, minFontSize, fontFamily := MaxFontSizeOf(opts), MinFontSizeOf(opts), FamilyOf(opts);
    var size := Estimate(text, maxWidth, maxFontSize);
    ctx.font := BoldFont(size, fontFamily);
    var textWidth := ctx.MeasureText(text);
    while textWidth > maxWidth && size > minFontSize
      invariant ctx.font == BoldFont(size, fontFamily)
      invariant textWidth == ctx.measure(ctx.font, text)
      invariant size <= maxFontSize
      invariant Shrink(ctx.measure, text, fontFamily, maxWidth, minFontSize, size)
        == Shrink(ctx.measure, text, fontFamily, maxWidth, minFontSize, InitialSize(text, maxWidth, opts))
      decreases (size - minFontSize).Floor
    {
      size := size - 2.0;
      ctx.font := BoldFont(size, fontFamily);
      textWidth := ctx.MeasureText(text);
    }
    fontSize := Min(size, maxFontSize);
  }

  /**
   * `drawTextWithStroke`: applies the options (or their defaults: white fill,
   * black stroke, line width 2, centred, top baseline), then strokes the text
   * and fills it at the same place.
   */
  method DrawTextWithStroke(ctx: Context, text: string, x: real, y: real, opts: StrokeOptions)
    modifies ctx
    ensures ctx.fillStyle == opts.fillStyle.GetOr(White)
    ensures ctx.strokeStyle == opts.strokeStyle.GetOr(Black)
    ensures var w := opts.lineWidth.GetOr(2.0); ctx.lineWidth == if w > 0.0 then w else old(ctx.lineWidth)
    ensures ctx.textAlign == opts.textAlign.GetOr(Center)
    ensures ctx.textBaseline == opts.textBaseline.GetOr(Top)
    ensures ctx.font == old(ctx.font) && ctx.clip == old(ctx.clip) && ctx.stack == old(ctx.stack)
    ensures ctx.log == old(ctx.log) + [
      Cmd(StrokeText(text, x, y, ctx.strokeStyle, ctx.lineWidth, ctx.font, ctx.textAlign, ctx.textBaseline),
          ctx.clip),
      Cmd(FillText(text, x, y, ctx.fillStyle, ctx.font, ctx.textAlign, ctx.textBaseline), ctx.clip)]
  {
    ctx.fillStyle := opts.fillStyle.GetOr(White);
    ctx.strokeStyle := opts.strokeStyle.GetOr(Black);
    ctx.SetLineWidth(opts.lineWidth.GetOr(2.0));
    ctx.textAlign := opts.textAlign.GetOr(Center);
    ctx.textBaseline := opts.textBaseline.GetOr(Top);
    ctx.StrokeText(text, x, y);
    ctx.FillText(text, x, y);
  }
}
