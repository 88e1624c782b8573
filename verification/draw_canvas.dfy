/**
 * The compositor (src/canvas/drawCanvas.ts): sizes the canvas for an optional
 * title band, fills it white, draws the title band, then each slice's picture
 * clipped to its slice and the slice's label, then the dividers. The expected
 * command log is given by `Composition`; the lemmas below state its layout.
 */
module CanvasDrawing {
  import opened Wrappers
  import opened Canvas2D
  import opened Constants
  import opened TextUtils
  import opened SeqFacts

  /** What the caller passes: one picture number per slice, the labels, the title, the divider toggle. */
  datatype DrawCanvasParams = DrawCanvasParams(imageNums: seq<int>, texts: seq<string>,
                                               topText: string, showDividers: bool)

  const TITLE_PADDING: real := 20.0
  const LABEL_PADDING: real := 16.0
  const LABEL_TOP_MARGIN: real := 20.0

  // ---------------------------------------------------------------------------
  // The title test: JavaScript's String.prototype.trim

  /** The characters `trim` removes: ECMAScript WhiteSpace and LineTerminator. */
  predicate IsTrimmable(c: char) {
    || c == '\t' || c == '\n' || c == '\U{000B}' || c == '\U{000C}' || c == '\r' || c == ' '
    || c == '\U{00A0}' || c == '\U{1680}' || ('\U{2000}' <= c <= '\U{200A}')
    || c == '\U{2028}' || c == '\U{2029}' || c == '\U{202F}' || c == '\U{205F}'
    || c == '\U{3000}' || c == '\U{FEFF}'
  }

  predicate IsBlank(s: string) {
    forall i :: 0 <= i < |s| ==> IsTrimmable(s[i])
  }

  function TrimStart(s: string): string {
    if |s| > 0 && IsTrimmable(s[0]) then TrimStart(s[1..]) else s
  }

  function TrimEnd(s: string): string {
    if |s| > 0 && IsTrimmable(s[|s| - 1]) then TrimEnd(s[..|s| - 1]) else s
  }

  function Trim(s: string): string {
    TrimEnd(TrimStart(s))
  }

  lemma {:induction false} TrimStartEmptyIffBlank(s: string)
    ensures TrimStart(s) == [] <==> IsBlank(s)
    ensures TrimStart(s) != [] ==> !IsTrimmable(TrimStart(s)[0])
  {
    if |s| > 0 && IsTrimmable(s[0]) {
      TrimStartEmptyIffBlank(s[1..]);
      assert IsBlank(s) <==> IsBlank(s[1..]) by {
        if IsBlank(s[1..]) {
          forall i | 0 <= i < |s| ensures IsTrimmable(s[i]) {
            if i > 0 { assert s[i] == s[1..][i - 1]; }
          }
        }
      }
    }
  }

  lemma {:induction false} TrimEndEmptyIffBlank(s: string)
    ensures TrimEnd(s) == [] <==> IsBlank(s)
  {
    if |s| > 0 && IsTrimmable(s[|s| - 1]) {
      var init := s[..|s| - 1];
      TrimEndEmptyIffBlank(init);
      assert IsBlank(s) <==> IsBlank(init) by {
        if IsBlank(init) {
          forall i | 0 <= i < |s| ensures IsTrimmable(s[i]) {
            if i < |s| - 1 { assert s[i] == init[i]; }
          }
        }
      }
    }
  }

  /** `topText.trim()` is empty exactly when every character of the title is white space. */
  lemma TrimmedEmptyIffBlank(s: string)
    ensures |Trim(s)| == 0 <==> IsBlank(s)
  {
    TrimStartEmptyIffBlank(s);
    var t := TrimStart(s);
    TrimEndEmptyIffBlank(t);
    if t != [] {
      assert !IsBlank(t) by { assert !IsTrimmable(t[0]); }
    }
  }

  // ---------------------------------------------------------------------------
  // Layout values

  predicate HasTopText(topText: string) {
    |Trim(topText)| > 0
  }

  function TotalHeight(topText: string): real {
    if HasTopText(topText) then CANVAS_HEIGHT + TOP_TEXT_AREA_HEIGHT else CANVAS_HEIGHT
  }

  function ImageOffsetY(topText: string): real {
    if HasTopText(topText) then TOP_TEXT_AREA_HEIGHT else 0.0
  }

  /**
   * `CANVAS_WIDTH / count`. With no slices the source divides by zero; the
   * value is then never used, and this model takes 0.
   */
  function SliceWidth(count: nat): real {
    if count == 0 then 0.0 else CANVAS_WIDTH / count as real
  }

  /** Left edge of slice `i`. */
  function SliceX(count: nat, i: int): real {
    SliceWidth(count) * i as real
  }

  /** `imgs[n]`: absent outside the table, as JavaScript's out-of-range read. */
  function ImageAt(images: seq<Option<Image>>, n: int): Option<Image> {
    if 0 <= n < |images| then images[n] else None
  }

  /** `img?.complete`: the slot holds a picture that has finished loading. */
  predicate IsComplete(images: seq<Option<Image>>, n: int) {
    ImageAt(images, n).Some? && ImageAt(images, n).value.complete
  }

  /** `texts[i]`, with the absent entries past the end read as the (falsy) empty string. */
  function LabelAt(texts: seq<string>, i: nat): string {
    if i < |texts| then texts[i] else ""
  }

  // ---------------------------------------------------------------------------
  // The commands each part draws, under the clip `clip` in force when it starts

  function BackgroundCommand(height: real, clip: seq<Rect>): Cmd {
    Cmd(FillRect(Rect(0.0, 0.0, CANVAS_WIDTH, height), White), clip)
  }

  function TitleFontSize(measure: Measure, topText: string): real {
    FontSizeToFit(measure, topText, CANVAS_WIDTH - TITLE_PADDING * 2.0, NoFitOptions)
  }

  /** `drawTopTextArea`: a white band, then the title in plain black, centred in it. */
  function TopTextCommands(measure: Measure, topText: string, clip: seq<Rect>): seq<Cmd> {
    var font := BoldFont(TitleFontSize(measure, topText), DEFAULT_FONT_FAMILY);
    [ Cmd(FillRect(Rect(0.0, 0.0, CANVAS_WIDTH, TOP_TEXT_AREA_HEIGHT), White), clip),
      Cmd(FillText(topText, CANVAS_WIDTH / 2.0, TOP_TEXT_AREA_HEIGHT / 2.0, Black, font, Center, Middle), clip) ]
  }

  /** The rectangle a slice is clipped to. */
  function SegmentRect(x: real, sliceWidth: real, imageOffsetY: real): Rect {
    Rect(x, imageOffsetY, sliceWidth, CANVAS_HEIGHT)
  }

  /** Where every picture is drawn: the full image area, whatever the slice. */
  function ImageDest(imageOffsetY: real): Rect {
    Rect(0.0, imageOffsetY, CANVAS_WIDTH, CANVAS_HEIGHT)
  }

  /** `drawSegmentImage` */
  function SegmentImageCommand(img: Image, x: real, sliceWidth: real, imageOffsetY: real,
                               clip: seq<Rect>): Cmd
  {
    Cmd(DrawImage(img, ImageDest(imageOffsetY)), clip + [SegmentRect(x, sliceWidth, imageOffsetY)])
  }

  function LabelFontSize(measure: Measure, text: string, sliceWidth: real): real {
    FontSizeToFit(measure, text, sliceWidth - LABEL_PADDING, NoFitOptions)
  }

  /** `drawSegmentLabel`: outlined text (black stroke of width 2, white fill) near the slice's top. */
  function SegmentLabelCommands(measure: Measure, text: string, x: real, sliceWidth: real,
                                imageOffsetY: real, clip: seq<Rect>): seq<Cmd>
  {
    var font := BoldFont(LabelFontSize(measure, text, sliceWidth), DEFAULT_FONT_FAMILY);
    var tx, ty := x + sliceWidth / 2.0, imageOffsetY + LABEL_TOP_MARGIN;
    [ Cmd(StrokeText(text, tx, ty, Black, 2.0, font, Center, Top), clip),
      Cmd(FillText(text, tx, ty, White, font, Center, Top), clip) ]
  }

  /** One turn of the slice loop: nothing for a missing or unfinished picture. */
  function SliceCommands(measure: Measure, p: DrawCanvasParams, images: seq<Option<Image>>, i: nat)
    : seq<Cmd>
    requires i < |p.imageNums|
  {
    var count, offY := |p.imageNums|, ImageOffsetY(p.topText);
    var img := ImageAt(images, p.imageNums[i]);
    if !IsComplete(images, p.imageNums[i]) then []
    else
      [SegmentImageCommand(img.value, SliceX(count, i), SliceWidth(count), offY, [])]
      + (if LabelAt(p.texts, i) != "" then
           SegmentLabelCommands(measure, LabelAt(p.texts, i), SliceX(count, i), SliceWidth(count), offY, [])
         else [])
  }

  /** Every turn of the slice loop, one block of commands per slot. */
  function SliceBlocks(measure: Measure, p: DrawCanvasParams, images: seq<Option<Image>>): seq<seq<Cmd>> {
    seq(|p.imageNums|, j requires 0 <= j < |p.imageNums| => SliceCommands(measure, p, images, j))
  }

  /** The first `n` turns of the slice loop, one after the other. */
  function Slices(measure: Measure, p: DrawCanvasParams, images: seq<Option<Image>>, n: nat): seq<Cmd>
    requires n <= |p.imageNums|
  {
    Flatten(SliceBlocks(measure, p, images)[..n])
  }

  /** One more turn of the slice loop appends its commands. */
  lemma SliceStep(measure: Measure, p: DrawCanvasParams, images: seq<Option<Image>>, i: nat)
    requires i < |p.imageNums|
    ensures Slices(measure, p, images, i + 1) == Slices(measure, p, images, i) + SliceCommands(measure, p, images, i)
  {
    FlattenSnoc(SliceBlocks(measure, p, images), i);
  }

  /** Divider `i`: a black bar `DIVIDER_WIDTH` wide centred on `sliceWidth * i`. */
  function DividerCommand(sliceWidth: real, i: int, imageOffsetY: real, clip: seq<Rect>): Cmd {
    Cmd(FillRect(Rect(sliceWidth * i as real - DIVIDER_WIDTH / 2.0, imageOffsetY, DIVIDER_WIDTH, CANVAS_HEIGHT),
                 Black), clip)
  }

  /** Dividers `1 .. n-1`. */
  function Dividers(sliceWidth: real, imageOffsetY: real, clip: seq<Rect>, n: int): seq<Cmd>
    decreases n
  {
    if n <= 1 then []
    else Dividers(sliceWidth, imageOffsetY, clip, n - 1) + [DividerCommand(sliceWidth, n - 1, imageOffsetY, clip)]
  }

  /** What `drawCanvas` draws before the slices: the white background, then the title band if any. */
  function Head(measure: Measure, p: DrawCanvasParams): seq<Cmd> {
    [BackgroundCommand(TotalHeight(p.topText), [])]
    + (if HasTopText(p.topText) then TopTextCommands(measure, p.topText, []) else [])
  }

  /** What `drawCanvas` draws after the slices: the dividers, when asked for and there are two slices or more. */
  function Tail(p: DrawCanvasParams): seq<Cmd> {
    var count := |p.imageNums|;
    if p.showDividers && count > 1 then Dividers(SliceWidth(count), ImageOffsetY(p.topText), [], count) else []
  }

  /** Everything `drawCanvas` draws, in order, on the freshly resized canvas. */
  function Composition(measure: Measure, p: DrawCanvasParams, images: seq<Option<Image>>): seq<Cmd> {
    Head(measure, p) + Slices(measure, p, images, |p.imageNums|) + Tail(p)
  }

  // ---------------------------------------------------------------------------
  // The drawing routines

  method DrawTopTextArea(ctx: Context, topText: string)
    modifies ctx
    ensures ctx.log == old(ctx.log) + TopTextCommands(ctx.measure, topText, old(ctx.clip))
    ensures ctx.Snapshot() == old(ctx.Snapshot()).(fillStyle := Black, textAlign := Center, textBaseline := Middle,
                                                   font := BoldFont(TitleFontSize(ctx.measure, topText), DEFAULT_FONT_FAMILY))
    ensures ctx.stack == old(ctx.stack)
  {
    ctx.fillStyle := White;
    ctx.FillRect(Rect(0.0, 0.0, CANVAS_WIDTH, TOP_TEXT_AREA_HEIGHT));
    ctx.fillStyle := Black;
    ctx.textAlign := Center;
    ctx.textBaseline := Middle;
    var padding := TITLE_PADDING;
    var availableWidth := CANVAS_WIDTH - padding * 2.0;
    var fontSize := GetFontSizeToFit(ctx, topText, availableWidth, NoFitOptions);
    ctx.font := BoldFont(fontSize, DEFAULT_FONT_FAMILY);
    ctx.FillText(topText, CANVAS_WIDTH / 2.0, TOP_TEXT_AREA_HEIGHT / 2.0);
  }

  method DrawSegmentImage(ctx: Context, img: Image, x: real, sliceWidth: real, imageOffsetY: real)
    modifies ctx
    ensures ctx.log == old(ctx.log) + [SegmentImageCommand(img, x, sliceWidth, imageOffsetY, old(ctx.clip))]
    ensures ctx.Snapshot() == old(ctx.Snapshot()) && ctx.stack == old(ctx.stack)
  {
    ctx.Save();
    ctx.ClipRect(Rect(x, imageOffsetY, sliceWidth, CANVAS_HEIGHT));
    ctx.DrawImage(img, Rect(0.0, imageOffsetY, CANVAS_WIDTH, CANVAS_HEIGHT));
    ctx.Restore();
  }

  /**
   * `drawSegmentLabel`. The line width it sets from the font size is replaced
   * by the outlined-text default of 2 before anything is stroked.
   */
  method DrawSegmentLabel(ctx: Context, text: string, x: real, sliceWidth: real, imageOffsetY: real)
    modifies ctx
    ensures ctx.log == old(ctx.log) + SegmentLabelCommands(ctx.measure, text, x, sliceWidth, imageOffsetY, old(ctx.clip))
    ensures ctx.Snapshot() == old(ctx.Snapshot()).(fillStyle := White, strokeStyle := Black, lineWidth := 2.0,
                                                   textAlign := Center, textBaseline := Top,
                                                   font := BoldFont(LabelFontSize(ctx.measure, text, sliceWidth),
                                                                    DEFAULT_FONT_FAMILY))
    ensures ctx.stack == old(ctx.stack)
  {
    var padding := LABEL_PADDING;
    var availableWidth := sliceWidth - padding;
    var fontSize := GetFontSizeToFit(ctx, text, availableWidth, NoFitOptions);
    ctx.font := BoldFont(fontSize, DEFAULT_FONT_FAMILY);
    ctx.SetLineWidth(if 1.0 >= fontSize / 16.0 then 1.0 else fontSize / 16.0);
    var textX := x + sliceWidth / 2.0;
    var textY := imageOffsetY + LABEL_TOP_MARGIN;
    DrawTextWithStroke(ctx, text, textX, textY, NoStrokeOptions);
  }

  method DrawDividers(ctx: Context, count: int, sliceWidth: real, imageOffsetY: real)
    modifies ctx
    ensures ctx.log == old(ctx.log) + Dividers(sliceWidth, imageOffsetY, old(ctx.clip), count)
    ensures ctx.Snapshot() == old(ctx.Snapshot()).(fillStyle := Black) && ctx.stack == old(ctx.stack)
  {
    ctx.fillStyle := Black;
    var i := 1;
    while i < count
      invariant 1 <= i <= if count >= 1 then count else 1
      invariant ctx.Snapshot() == old(ctx.Snapshot()).(fillStyle := Black) && ctx.stack == old(ctx.stack)
      invariant ctx.fillStyle == Black
      invariant ctx.log == old(ctx.log) + Dividers(sliceWidth, imageOffsetY, old(ctx.clip), i)
    {
      var lineX := sliceWidth * i as real - DIVIDER_WIDTH / 2.0;
      ctx.FillRect(Rect(lineX, imageOffsetY, DIVIDER_WIDTH, CANVAS_HEIGHT));
      assert ctx.log[|ctx.log| - 1] == DividerCommand(sliceWidth, i, imageOffsetY, old(ctx.clip));
      i := i + 1;
    }
  }

  /** One turn of the slice loop of `drawCanvas`, on an unclipped context with nothing saved. */
  method DrawSlice(ctx: Context, p: DrawCanvasParams, images: seq<Option<Image>>, i: nat,
                   sliceWidth: real, imageOffsetY: real)
    requires i < |p.imageNums|
    requires sliceWidth == SliceWidth(|p.imageNums|) && imageOffsetY == ImageOffsetY(p.topText)
    requires ctx.clip == [] && ctx.stack == []
    modifies ctx
    ensures ctx.Snapshot() == old(ctx.Snapshot()) && ctx.clip == [] && ctx.stack == []
    ensures ctx.log == old(ctx.log) + SliceCommands(ctx.measure, p, images, i)
  {
    var img := ImageAt(images, p.imageNums[i]);
    ghost var log0 := ctx.log;
    if IsComplete(images, p.imageNums[i]) {
      var x := sliceWidth * i as real;
      DrawSegmentImage(ctx, img.value, x, sliceWidth, imageOffsetY);
      ghost var count := |p.imageNums|;
      ghost var picture := [SegmentImageCommand(img.value, x, sliceWidth, imageOffsetY, [])];
      assert x == SliceX(count, i);
      assert picture == [SegmentImageCommand(img.value, SliceX(count, i), SliceWidth(count), ImageOffsetY(p.topText), [])];
      var text := LabelAt(p.texts, i);
      if text != "" {
        ctx.Save();
        DrawSegmentLabel(ctx, text, x, sliceWidth, imageOffsetY);
        ctx.Restore();
        ghost var caption := SegmentLabelCommands(ctx.measure, text, x, sliceWidth, imageOffsetY, []);
        assert caption == SegmentLabelCommands(ctx.measure, LabelAt(p.texts, i), SliceX(count, i),
                                               SliceWidth(count), ImageOffsetY(p.topText), []);
        assert SliceCommands(ctx.measure, p, images, i) == picture + caption;
        AppendAssoc(log0, picture, caption);
      } else {
        assert SliceCommands(ctx.measure, p, images, i) == picture;
      }
    } else {
      assert SliceCommands(ctx.measure, p, images, i) == [];
    }
  }

  /** The slice loop of `drawCanvas`: every slice, left to right. */
  method DrawSlices(ctx: Context, p: DrawCanvasParams, images: seq<Option<Image>>,
                    sliceWidth: real, imageOffsetY: real)
    requires sliceWidth == SliceWidth(|p.imageNums|) && imageOffsetY == ImageOffsetY(p.topText)
    requires ctx.clip == [] && ctx.stack == []
    modifies ctx
    ensures ctx.Snapshot() == old(ctx.Snapshot()) && ctx.clip == [] && ctx.stack == []
    ensures ctx.log == old(ctx.log) + Slices(ctx.measure, p, images, |p.imageNums|)
  {
    var count := |p.imageNums|;
    var i := 0;
    while i < count
      invariant 0 <= i <= count
      invariant ctx.Snapshot() == old(ctx.Snapshot()) && ctx.clip == [] && ctx.stack == []
      invariant ctx.log == old(ctx.log) + Slices(ctx.measure, p, images, i)
    {
      DrawSlice(ctx, p, images, i, sliceWidth, imageOffsetY);
      SliceStep(ctx.measure, p, images, i);
      AppendAssoc(old(ctx.log), Slices(ctx.measure, p, images, i), SliceCommands(ctx.measure, p, images, i));
      i := i + 1;
    }
  }

  /**
   * The drawing state `drawCanvas` leaves on a freshly reset context: the title
   * leaves its black fill, centred middle alignment and font; the dividers
   * leave a black fill; every save is restored, so the clip ends empty.
   */
  function FinalState(measure: Measure, p: DrawCanvasParams): Saved {
    var title := HasTopText(p.topText);
    Saved(if (p.showDividers && |p.imageNums| > 1) || title then Black else White,
          Black, 1.0,
          if title then BoldFont(TitleFontSize(measure, p.topText), DEFAULT_FONT_FAMILY) else DefaultFont,
          if title then Center else Start,
          if title then Middle else Alphabetic,
          [])
  }

  /**
   * `drawCanvas`. Without a 2D context it does nothing; otherwise the canvas
   * is resized (which clears it) and ends up holding exactly `Composition`.
   */
  method DrawCanvas(canvas: Canvas, p: DrawCanvasParams, images: seq<Option<Image>>)
    modifies canvas, canvas.context
    ensures canvas.context == null ==> canvas.width == old(canvas.width) && canvas.height == old(canvas.height)
    ensures canvas.context != null ==>
      && canvas.width == CANVAS_WIDTH && canvas.height == TotalHeight(p.topText)
      && canvas.context.log == Composition(canvas.context.measure, p, images)
      && canvas.context.stack == []
      && canvas.context.Snapshot() == FinalState(canvas.context.measure, p)
  {
    var ctx := canvas.context;
    if ctx == null {
      return;
    }
    var count := |p.imageNums|;
    var sliceWidth := SliceWidth(count);
    var hasTopText := |Trim(p.topText)| > 0;
    var totalHeight := if hasTopText then CANVAS_HEIGHT + TOP_TEXT_AREA_HEIGHT else CANVAS_HEIGHT;
    var imageOffsetY := if hasTopText then TOP_TEXT_AREA_HEIGHT else 0.0;

    canvas.Resize(CANVAS_WIDTH, totalHeight);

    ctx.fillStyle := White;
    ctx.FillRect(Rect(0.0, 0.0, CANVAS_WIDTH, totalHeight));
    assert ctx.log == [BackgroundCommand(TotalHeight(p.topText), [])];

    if hasTopText {
      DrawTopTextArea(ctx, p.topText);
    }
    assert ctx.log == Head(ctx.measure, p);
    DrawSlices(ctx, p, images, sliceWidth, imageOffsetY);
    ghost var slices := Slices(ctx.measure, p, images, count);
    assert ctx.log == Head(ctx.measure, p) + slices;

    if p.showDividers && count > 1 {
      DrawDividers(ctx, count, sliceWidth, imageOffsetY);
    }
    assert ctx.log == Head(ctx.measure, p) + slices + Tail(p);
  }

  // ---------------------------------------------------------------------------
  // Properties of the layout

  /** The canvas height and the image offset follow the trimmed title. */
  lemma HeightFollowsTitle(topText: string)
    ensures !IsBlank(topText) ==>
      TotalHeight(topText) == CANVAS_HEIGHT + TOP_TEXT_AREA_HEIGHT && ImageOffsetY(topText) == TOP_TEXT_AREA_HEIGHT
    ensures IsBlank(topText) ==> TotalHeight(topText) == CANVAS_HEIGHT && ImageOffsetY(topText) == 0.0
  {
    TrimmedEmptyIffBlank(topText);
  }

  /** `x` lies in slice `i`'s half-open span of the canvas width. */
  predicate InSlice(count: nat, i: int, x: real) {
    SliceX(count, i) <= x < SliceX(count, i + 1)
  }

  lemma SliceXMonotone(count: nat, i: int, j: int)
    requires count >= 1 && i <= j
    ensures SliceX(count, i) <= SliceX(count, j)
    ensures i < j ==> SliceX(count, i) < SliceX(count, j)
  {
    var w := SliceWidth(count);
    assert SliceX(count, j) - SliceX(count, i) == w * (j - i) as real;
  }

  /**
   * The slices tile the canvas width: the first starts at 0, the last ends at
   * `CANVAS_WIDTH`, and every point of `[0, CANVAS_WIDTH)` lies in exactly one.
   */
  lemma SlicesTileCanvas(count: nat, x: real)
    requires count >= 1
    requires 0.0 <= x < CANVAS_WIDTH
    ensures SliceX(count, 0) == 0.0 && SliceX(count, count) == CANVAS_WIDTH
    ensures exists i :: 0 <= i < count && InSlice(count, i, x)
    ensures forall i, j :: InSlice(count, i, x) && InSlice(count, j, x) ==> i == j
  {
    var i := SliceOf(count, x);
    forall a, b | InSlice(count, a, x) && InSlice(count, b, x)
      ensures a == b
    {
      InSliceUnique(count, x, a, b);
    }
  }

  /** The slice holding a point of the canvas width: the point divided by the slice width, rounded down. */
  lemma SliceOf(count: nat, x: real) returns (i: int)
    requires count >= 1
    requires 0.0 <= x < CANVAS_WIDTH
    ensures SliceX(count, 0) == 0.0 && SliceX(count, count) == CANVAS_WIDTH
    ensures 0 <= i < count && InSlice(count, i, x)
  {
    i := (x / SliceWidth(count)).Floor;
    InSliceFloor(count, x);
    assert SliceX(count, count) == CANVAS_WIDTH;
    assert 0 <= i by {
      if i < 0 { SliceXMonotone(count, i + 1, 0); }
    }
    assert i < count by {
      if i >= count { SliceXMonotone(count, count, i); }
    }
  }

  lemma InSliceFloor(count: nat, x: real)
    requires count >= 1
    ensures InSlice(count, (x / SliceWidth(count)).Floor, x)
  {
    var w := SliceWidth(count);
    var q := x / w;
    var i := q.Floor;
    assert x == w * q;
    assert i as real <= q < i as real + 1.0;
    assert SliceX(count, i) <= x by {
      assert w * (q - i as real) >= 0.0;
    }
    assert x < SliceX(count, i + 1) by {
      assert w * (i as real + 1.0 - q) > 0.0;
    }
  }

  lemma InSliceUnique(count: nat, x: real, a: int, b: int)
    requires count >= 1
    requires InSlice(count, a, x) && InSlice(count, b, x)
    ensures a == b
  {
    if a < b {
      SliceXMonotone(count, a + 1, b);
    } else if b < a {
      SliceXMonotone(count, b + 1, a);
    }
  }

  /** The first `m` turns of the slice loop are a prefix of the first `n`. */
  lemma SlicesPrefix(measure: Measure, p: DrawCanvasParams, images: seq<Option<Image>>,
                                        m: nat, n: nat)
    requires m <= n <= |p.imageNums|
    ensures |Slices(measure, p, images, m)| <= |Slices(measure, p, images, n)|
    ensures Slices(measure, p, images, n)[..|Slices(measure, p, images, m)|] == Slices(measure, p, images, m)
  {
    FlattenPrefix(SliceBlocks(measure, p, images), m, n);
  }

  /** Where slice `i`'s commands start in the composition. */
  function SliceStart(measure: Measure, p: DrawCanvasParams, images: seq<Option<Image>>, i: nat): nat
    requires i <= |p.imageNums|
  {
    |Head(measure, p)| + |Slices(measure, p, images, i)|
  }

  lemma SliceStartMonotone(measure: Measure, p: DrawCanvasParams, images: seq<Option<Image>>)
    ensures forall i, j :: 0 <= i <= j <= |p.imageNums| ==>
      SliceStart(measure, p, images, i) <= SliceStart(measure, p, images, j)
  {
    forall i, j | 0 <= i <= j <= |p.imageNums|
      ensures SliceStart(measure, p, images, i) <= SliceStart(measure, p, images, j)
    {
      SlicesPrefix(measure, p, images, i, j);
    }
  }

  /** Slice `i`'s commands sit in the composition from `SliceStart(i)` to `SliceStart(i + 1)`. */
  lemma SliceBlock(measure: Measure, p: DrawCanvasParams, images: seq<Option<Image>>, i: nat)
    requires i < |p.imageNums|
    ensures BlockAt(Composition(measure, p, images), SliceStart(measure, p, images, i),
                    SliceStart(measure, p, images, i + 1), SliceCommands(measure, p, images, i))
  {
    var head, all, tail := Head(measure, p), Slices(measure, p, images, |p.imageNums|), Tail(p);
    var before, upto := Slices(measure, p, images, i), Slices(measure, p, images, i + 1);
    var block := SliceCommands(measure, p, images, i);
    SliceStep(measure, p, images, i);
    SlicesPrefix(measure, p, images, i + 1, |p.imageNums|);
    BlockInMiddle(Composition(measure, p, images), head, all, tail, before, block, upto,
                  SliceStart(measure, p, images, i), SliceStart(measure, p, images, i + 1));
  }

  /**
   * The composition opens with the white fill of the whole canvas and, when
   * there is a title, the white band and the title in plain black centred in it.
   */
  lemma CompositionOpening(measure: Measure, p: DrawCanvasParams, images: seq<Option<Image>>)
    ensures var c := Composition(measure, p, images);
      && c[0] == Cmd(FillRect(Rect(0.0, 0.0, CANVAS_WIDTH, TotalHeight(p.topText)), White), [])
      && (HasTopText(p.topText) ==>
            && SliceStart(measure, p, images, 0) == 3
            && c[1] == Cmd(FillRect(Rect(0.0, 0.0, CANVAS_WIDTH, TOP_TEXT_AREA_HEIGHT), White), [])
            && c[2].op.FillText? && c[2].op.text == p.topText && c[2].op.fill == Black
            && c[2].op.align == Center && c[2].op.baseline == Middle
            && c[2].op.x == CANVAS_WIDTH / 2.0 && c[2].op.y == TOP_TEXT_AREA_HEIGHT / 2.0)
      && (!HasTopText(p.topText) ==> SliceStart(measure, p, images, 0) == 1)
  {
    var head, all, tail := Head(measure, p), Slices(measure, p, images, |p.imageNums|), Tail(p);
    assert Composition(measure, p, images) == head + (all + tail);
  }

  /**
   * After the opening, each slice's block follows in left-to-right order, and
   * the dividers close the composition.
   */
  lemma CompositionOrder(measure: Measure, p: DrawCanvasParams, images: seq<Option<Image>>)
    ensures forall i, j :: 0 <= i <= j <= |p.imageNums| ==>
      SliceStart(measure, p, images, i) <= SliceStart(measure, p, images, j)
    ensures forall i :: 0 <= i < |p.imageNums| ==>
      BlockAt(Composition(measure, p, images), SliceStart(measure, p, images, i),
              SliceStart(measure, p, images, i + 1), SliceCommands(measure, p, images, i))
    ensures var c := Composition(measure, p, images);
      BlockAt(c, SliceStart(measure, p, images, |p.imageNums|), |c|, Tail(p))
  {
    SliceStartMonotone(measure, p, images);
    forall i | 0 <= i < |p.imageNums|
      ensures BlockAt(Composition(measure, p, images), SliceStart(measure, p, images, i),
                      SliceStart(measure, p, images, i + 1), SliceCommands(measure, p, images, i))
    {
      SliceBlock(measure, p, images, i);
    }
    TailBlock(measure, p, images);
  }

  /** The dividers close the composition. */
  lemma TailBlock(measure: Measure, p: DrawCanvasParams, images: seq<Option<Image>>)
    ensures var c := Composition(measure, p, images);
      BlockAt(c, SliceStart(measure, p, images, |p.imageNums|), |c|, Tail(p))
  {
    var head, all, tail := Head(measure, p), Slices(measure, p, images, |p.imageNums|), Tail(p);
    assert (head + all + tail)[|head + all|..] == tail;
  }

  /** `c` is slice `i`'s picture command. */
  predicate IsSliceImage(p: DrawCanvasParams, images: seq<Option<Image>>, c: Cmd, i: int) {
    && 0 <= i < |p.imageNums| && IsComplete(images, p.imageNums[i])
    && c == SegmentImageCommand(ImageAt(images, p.imageNums[i]).value, SliceX(|p.imageNums|, i),
                                SliceWidth(|p.imageNums|), ImageOffsetY(p.topText), [])
  }

  /** `c` is the stroke of slice `i`'s label. */
  predicate IsSliceStroke(measure: Measure, p: DrawCanvasParams, images: seq<Option<Image>>, c: Cmd, i: int) {
    && 0 <= i < |p.imageNums| && IsComplete(images, p.imageNums[i]) && LabelAt(p.texts, i) != ""
    && c == SegmentLabelCommands(measure, LabelAt(p.texts, i), SliceX(|p.imageNums|, i),
                                 SliceWidth(|p.imageNums|), ImageOffsetY(p.topText), [])[0]
  }

  /** `c` is the fill of slice `i`'s label. */
  predicate IsSliceFill(measure: Measure, p: DrawCanvasParams, images: seq<Option<Image>>, c: Cmd, i: int) {
    && 0 <= i < |p.imageNums| && IsComplete(images, p.imageNums[i]) && LabelAt(p.texts, i) != ""
    && c == SegmentLabelCommands(measure, LabelAt(p.texts, i), SliceX(|p.imageNums|, i),
                                 SliceWidth(|p.imageNums|), ImageOffsetY(p.topText), [])[1]
  }

  /**
   * One turn of the slice loop: nothing when the picture is missing or still
   * loading; otherwise the picture, then, when the label is truthy, its stroke
   * and its fill.
   */
  lemma SliceCommandsShape(measure: Measure, p: DrawCanvasParams, images: seq<Option<Image>>, i: nat)
    requires i < |p.imageNums|
    ensures var sc, count, offY := SliceCommands(measure, p, images, i), |p.imageNums|, ImageOffsetY(p.topText);
      && (sc == [] <==> !IsComplete(images, p.imageNums[i]))
      && (IsComplete(images, p.imageNums[i]) ==>
            && |sc| == (if LabelAt(p.texts, i) != "" then 3 else 1)
            && IsSliceImage(p, images, sc[0], i)
            && (LabelAt(p.texts, i) != "" ==>
                  sc[1..] == SegmentLabelCommands(measure, LabelAt(p.texts, i), SliceX(count, i),
                                                  SliceWidth(count), offY, [])
                  && IsSliceStroke(measure, p, images, sc[1], i) && IsSliceFill(measure, p, images, sc[2], i)))
  {
  }

  /** A command of the slice loop is the picture, the label stroke or the label fill of its turn. */
  lemma SlicesCommandKind(measure: Measure, p: DrawCanvasParams, images: seq<Option<Image>>, k: int)
    requires 0 <= k < |Slices(measure, p, images, |p.imageNums|)|
    ensures var c := Slices(measure, p, images, |p.imageNums|)[k];
      && !c.op.FillRect?
      && (c.op.DrawImage? ==> exists i :: IsSliceImage(p, images, c, i))
      && (c.op.StrokeText? ==> exists i :: IsSliceStroke(measure, p, images, c, i))
      && (c.op.FillText? ==> exists i :: IsSliceFill(measure, p, images, c, i))
  {
    var n, blocks := |p.imageNums|, SliceBlocks(measure, p, images);
    FlattenIssuer(blocks, n, k);
    var i :| IssuedBy(blocks, n, k, i);
    var j := k - |Slices(measure, p, images, i)|;
    SliceCommandsShape(measure, p, images, i);
    var sc := SliceCommands(measure, p, images, i);
    var c := Slices(measure, p, images, n)[k];
    assert c == sc[j];
    if j == 0 {
      assert IsSliceImage(p, images, c, i);
    } else if j == 1 {
      assert IsSliceStroke(measure, p, images, c, i);
    } else {
      assert IsSliceFill(measure, p, images, c, i);
    }
  }

  lemma {:induction false} SlicesNoFills(measure: Measure, p: DrawCanvasParams, images: seq<Option<Image>>)
    ensures BlackFills(Slices(measure, p, images, |p.imageNums|)) == 0
  {
    var s := Slices(measure, p, images, |p.imageNums|);
    forall k | 0 <= k < |s| ensures !s[k].op.FillRect? {
      SlicesCommandKind(measure, p, images, k);
    }
    NoFillsNoBlackFills(s);
  }

  /** Counts the black rectangle fills (the dividers) among `cmds`. */
  function BlackFills(cmds: seq<Cmd>): nat {
    if cmds == [] then 0
    else BlackFills(cmds[..|cmds| - 1])
         + (if cmds[|cmds| - 1].op.FillRect? && cmds[|cmds| - 1].op.fill == Black then 1 else 0)
  }

  lemma {:induction false} BlackFillsAppend(a: seq<Cmd>, b: seq<Cmd>)
    ensures BlackFills(a + b) == BlackFills(a) + BlackFills(b)
    decreases |b|
  {
    if b == [] {
      assert a + b == a;
    } else {
      var init := b[..|b| - 1];
      BlackFillsAppend(a, init);
      assert (a + b)[..|a + b| - 1] == a + init;
    }
  }

  lemma {:induction false} NoFillsNoBlackFills(cmds: seq<Cmd>)
    requires forall k :: 0 <= k < |cmds| ==> !cmds[k].op.FillRect?
    ensures BlackFills(cmds) == 0
    decreases |cmds|
  {
    if cmds != [] {
      NoFillsNoBlackFills(cmds[..|cmds| - 1]);
    }
  }

  /** Dividers `1 .. n-1`: one black bar per internal boundary, in order. */
  lemma {:induction false} DividersShape(sliceWidth: real, imageOffsetY: real, clip: seq<Rect>, n: int)
    ensures |Dividers(sliceWidth, imageOffsetY, clip, n)| == if n > 1 then n - 1 else 0
    ensures forall i :: 1 <= i < n ==>
      Dividers(sliceWidth, imageOffsetY, clip, n)[i - 1] == DividerCommand(sliceWidth, i, imageOffsetY, clip)
    ensures BlackFills(Dividers(sliceWidth, imageOffsetY, clip, n)) == |Dividers(sliceWidth, imageOffsetY, clip, n)|
    decreases n
  {
    if n > 1 {
      DividersShape(sliceWidth, imageOffsetY, clip, n - 1);
      var prev := Dividers(sliceWidth, imageOffsetY, clip, n - 1);
      var d := Dividers(sliceWidth, imageOffsetY, clip, n);
      assert d == prev + [DividerCommand(sliceWidth, n - 1, imageOffsetY, clip)];
      assert d[..|d| - 1] == prev;
      forall i | 1 <= i < n
        ensures d[i - 1] == DividerCommand(sliceWidth, i, imageOffsetY, clip)
      {
        if i < n - 1 {
          assert d[i - 1] == prev[i - 1];
        }
      }
    }
  }

  /** Where a command of the composition comes from: the opening, a slice, or the dividers. */
  lemma CompositionAt(measure: Measure, p: DrawCanvasParams, images: seq<Option<Image>>, k: nat)
    requires k < |Composition(measure, p, images)|
    ensures var c, head, all := Composition(measure, p, images), Head(measure, p),
                                Slices(measure, p, images, |p.imageNums|);
      && (k < |head| ==> c[k] == head[k])
      && (|head| <= k < |head| + |all| ==> c[k] == all[k - |head|])
      && (|head| + |all| <= k ==> c[k] == Tail(p)[k - |head| - |all|])
  {
    var head, all, tail := Head(measure, p), Slices(measure, p, images, |p.imageNums|), Tail(p);
    assert Composition(measure, p, images) == head + all + tail;
  }

  /**
   * The opening draws neither a picture, nor a stroke, nor a black rectangle;
   * its only text, the title, is filled in black.
   */
  lemma OpeningKinds(measure: Measure, p: DrawCanvasParams)
    ensures forall k :: 0 <= k < |Head(measure, p)| ==>
      !Head(measure, p)[k].op.DrawImage? && !Head(measure, p)[k].op.StrokeText?
      && !(Head(measure, p)[k].op.FillRect? && Head(measure, p)[k].op.fill == Black)
      && (Head(measure, p)[k].op.FillText? ==> Head(measure, p)[k].op.fill == Black)
    ensures BlackFills(Head(measure, p)) == 0
  {
    var head := Head(measure, p);
    if HasTopText(p.topText) {
      assert |head| == 3 && head[0].op.FillRect? && head[1].op.FillRect? && head[2].op.FillText?;
      assert head[0].op.fill == White && head[1].op.fill == White;
      assert BlackFills(head[..1]) == 0 by {
        assert head[..1][..0] == [];
      }
      assert BlackFills(head[..2]) == 0 by {
        assert head[..2][..1] == head[..1];
      }
      assert head[..2] == head[..|head| - 1];
    } else {
      assert |head| == 1 && head[0].op.FillRect?;
      assert head[..0] == [];
    }
  }

  /** The dividers are all black fills. */
  lemma DividerKinds(p: DrawCanvasParams)
    ensures forall k :: 0 <= k < |Tail(p)| ==> Tail(p)[k].op.FillRect? && Tail(p)[k].op.fill == Black
    ensures BlackFills(Tail(p)) == |Tail(p)|
  {
    var count := |p.imageNums|;
    DividersShape(SliceWidth(count), ImageOffsetY(p.topText), [], count);
    forall k | 0 <= k < |Tail(p)|
      ensures Tail(p)[k].op.FillRect? && Tail(p)[k].op.fill == Black
    {
      assert Tail(p)[k] == DividerCommand(SliceWidth(count), k + 1, ImageOffsetY(p.topText), []);
    }
  }

  /** Each picture command of the composition is the picture command of some slice. */
  lemma ImageFromSlice(measure: Measure, p: DrawCanvasParams, images: seq<Option<Image>>, k: nat)
    requires k < |Composition(measure, p, images)| && Composition(measure, p, images)[k].op.DrawImage?
    ensures exists i :: IsSliceImage(p, images, Composition(measure, p, images)[k], i)
  {
    var head, all := Head(measure, p), Slices(measure, p, images, |p.imageNums|);
    CompositionAt(measure, p, images, k);
    OpeningKinds(measure, p);
    DividerKinds(p);
    if |head| <= k < |head| + |all| {
      SlicesCommandKind(measure, p, images, k - |head|);
    }
  }

  /**
   * Every picture is drawn onto the same rectangle, the full image area below
   * the title band, whatever its slice; only the clip, the rectangle of the
   * slice whose picture it is, differs.
   */
  lemma ImagesShareDestination(measure: Measure, p: DrawCanvasParams, images: seq<Option<Image>>)
    ensures var c, count, offY := Composition(measure, p, images), |p.imageNums|, ImageOffsetY(p.topText);
      forall k :: 0 <= k < |c| && c[k].op.DrawImage? ==>
        && c[k].op.dest == Rect(0.0, offY, CANVAS_WIDTH, CANVAS_HEIGHT)
        && exists i :: (0 <= i < count && IsComplete(images, p.imageNums[i])
             && c[k].op.image == ImageAt(images, p.imageNums[i]).value
             && c[k].clip == [Rect(SliceX(count, i), offY, SliceWidth(count), CANVAS_HEIGHT)])
  {
    var c, count, offY := Composition(measure, p, images), |p.imageNums|, ImageOffsetY(p.topText);
    forall k | 0 <= k < |c| && c[k].op.DrawImage?
      ensures c[k].op.dest == Rect(0.0, offY, CANVAS_WIDTH, CANVAS_HEIGHT)
      ensures exists i :: (0 <= i < count && IsComplete(images, p.imageNums[i])
             && c[k].op.image == ImageAt(images, p.imageNums[i]).value
             && c[k].clip == [Rect(SliceX(count, i), offY, SliceWidth(count), CANVAS_HEIGHT)])
    {
      ImageFromSlice(measure, p, images, k);
      var i :| IsSliceImage(p, images, c[k], i);
    }
  }

  /** The anchor of slice `i`'s label: the middle of the slice. */
  function LabelAnchorX(count: nat, i: int): real {
    SliceX(count, i) + SliceWidth(count) / 2.0
  }

  /**
   * A slice whose picture has loaded and whose label is truthy gets its label:
   * a black stroke of width 2 and then a white fill of the same text at the
   * same anchor, in the middle of the slice 20 below the top of the images,
   * in the bold size fitted to the slice width less 16, unclipped.
   */
  lemma LabelDrawn(measure: Measure, p: DrawCanvasParams, images: seq<Option<Image>>, i: nat)
    requires i < |p.imageNums|
    requires IsComplete(images, p.imageNums[i]) && LabelAt(p.texts, i) != ""
    ensures var c, count, offY, text := Composition(measure, p, images), |p.imageNums|,
                                        ImageOffsetY(p.topText), LabelAt(p.texts, i);
      var font := BoldFont(FontSizeToFit(measure, text, SliceWidth(count) - LABEL_PADDING, NoFitOptions),
                           DEFAULT_FONT_FAMILY);
      exists k :: 0 <= k < |c| - 1
        && c[k] == Cmd(StrokeText(text, LabelAnchorX(count, i), offY + LABEL_TOP_MARGIN, Black, 2.0, font,
                                  Center, Top), [])
        && c[k + 1] == Cmd(FillText(text, LabelAnchorX(count, i), offY + LABEL_TOP_MARGIN, White, font,
                                    Center, Top), [])
  {
    CaptionInComposition(measure, p, images, i);
    CaptionShape(measure, LabelAt(p.texts, i), SliceX(|p.imageNums|, i), SliceWidth(|p.imageNums|),
                 ImageOffsetY(p.topText));
    assert LabelAnchorX(|p.imageNums|, i) == SliceX(|p.imageNums|, i) + SliceWidth(|p.imageNums|) / 2.0;
  }

  /** The label's two commands follow the slice's picture in the composition. */
  lemma CaptionInComposition(measure: Measure, p: DrawCanvasParams, images: seq<Option<Image>>, i: nat)
    requires i < |p.imageNums|
    requires IsComplete(images, p.imageNums[i]) && LabelAt(p.texts, i) != ""
    ensures var c, k := Composition(measure, p, images), SliceStart(measure, p, images, i) + 1;
      var caption := SegmentLabelCommands(measure, LabelAt(p.texts, i), SliceX(|p.imageNums|, i),
                                          SliceWidth(|p.imageNums|), ImageOffsetY(p.topText), []);
      && 0 <= k < |c| - 1 && |caption| == 2 && c[k] == caption[0] && c[k + 1] == caption[1]
  {
    var c := Composition(measure, p, images);
    SliceBlock(measure, p, images, i);
    SliceCommandsShape(measure, p, images, i);
    var start, end := SliceStart(measure, p, images, i), SliceStart(measure, p, images, i + 1);
    var sc := SliceCommands(measure, p, images, i);
    BlockElement(c, start, end, sc, 1);
    BlockElement(c, start, end, sc, 2);
  }

  lemma CaptionShape(measure: Measure, text: string, x: real, sliceWidth: real, imageOffsetY: real)
    ensures var font := BoldFont(FontSizeToFit(measure, text, sliceWidth - LABEL_PADDING, NoFitOptions),
                                 DEFAULT_FONT_FAMILY);
      var caption, ax, ay := SegmentLabelCommands(measure, text, x, sliceWidth, imageOffsetY, []),
                             x + sliceWidth / 2.0, imageOffsetY + LABEL_TOP_MARGIN;
      && caption[0] == Cmd(StrokeText(text, ax, ay, Black, 2.0, font, Center, Top), [])
      && caption[1] == Cmd(FillText(text, ax, ay, White, font, Center, Top), [])
  {
  }

  /** Slice `i`'s label is stroked exactly when its picture has loaded and its label is truthy. */
  lemma LabelDrawnIff(measure: Measure, p: DrawCanvasParams, images: seq<Option<Image>>, i: nat)
    requires i < |p.imageNums|
    ensures var c, count := Composition(measure, p, images), |p.imageNums|;
      (exists k :: 0 <= k < |c| && c[k].op.StrokeText? && c[k].op.x == LabelAnchorX(count, i))
      <==> IsComplete(images, p.imageNums[i]) && LabelAt(p.texts, i) != ""
  {
    var c, count := Composition(measure, p, images), |p.imageNums|;
    if IsComplete(images, p.imageNums[i]) && LabelAt(p.texts, i) != "" {
      LabelDrawn(measure, p, images, i);
    }
    forall k | 0 <= k < |c| && c[k].op.StrokeText? && c[k].op.x == LabelAnchorX(count, i)
      ensures IsComplete(images, p.imageNums[i]) && LabelAt(p.texts, i) != ""
    {
      StrokeFromSlice(measure, p, images, k);
      var j :| IsSliceStroke(measure, p, images, c[k], j);
      assert c[k].op.x == LabelAnchorX(count, j);
      LabelAnchorInjective(count, i, j);
    }
  }

  /** Each label stroke of the composition is the label stroke of some slice. */
  lemma StrokeFromSlice(measure: Measure, p: DrawCanvasParams, images: seq<Option<Image>>, k: nat)
    requires k < |Composition(measure, p, images)| && Composition(measure, p, images)[k].op.StrokeText?
    ensures exists i :: IsSliceStroke(measure, p, images, Composition(measure, p, images)[k], i)
  {
    var head, all := Head(measure, p), Slices(measure, p, images, |p.imageNums|);
    CompositionAt(measure, p, images, k);
    OpeningKinds(measure, p);
    DividerKinds(p);
    if |head| <= k < |head| + |all| {
      SlicesCommandKind(measure, p, images, k - |head|);
    }
  }

  /** Each white text fill of the composition is the label fill of some slice. */
  lemma FillFromSlice(measure: Measure, p: DrawCanvasParams, images: seq<Option<Image>>, k: nat)
    requires k < |Composition(measure, p, images)|
    requires Composition(measure, p, images)[k].op.FillText? && Composition(measure, p, images)[k].op.fill == White
    ensures exists i :: IsSliceFill(measure, p, images, Composition(measure, p, images)[k], i)
  {
    var head, all := Head(measure, p), Slices(measure, p, images, |p.imageNums|);
    CompositionAt(measure, p, images, k);
    OpeningKinds(measure, p);
    DividerKinds(p);
    if |head| <= k < |head| + |all| {
      SlicesCommandKind(measure, p, images, k - |head|);
    }
  }

  /**
   * The composition fills exactly two kinds of text: the title, third in the
   * opening when there is one, and the label fills of loaded, labelled slices.
   */
  lemma TextFillSource(measure: Measure, p: DrawCanvasParams, images: seq<Option<Image>>, k: nat)
    requires k < |Composition(measure, p, images)| && Composition(measure, p, images)[k].op.FillText?
    ensures var c := Composition(measure, p, images);
      || (HasTopText(p.topText) && k == 2 && c[k] == TopTextCommands(measure, p.topText, [])[1])
      || exists i :: IsSliceFill(measure, p, images, c[k], i)
  {
    var head, all := Head(measure, p), Slices(measure, p, images, |p.imageNums|);
    CompositionAt(measure, p, images, k);
    DividerKinds(p);
    if |head| <= k < |head| + |all| {
      SlicesCommandKind(measure, p, images, k - |head|);
    }
  }

  /** Slice `i`'s label is filled in white exactly when its picture has loaded and its label is truthy. */
  lemma LabelFilledIff(measure: Measure, p: DrawCanvasParams, images: seq<Option<Image>>, i: nat)
    requires i < |p.imageNums|
    ensures var c, count := Composition(measure, p, images), |p.imageNums|;
      (exists k :: 0 <= k < |c| && c[k].op.FillText? && c[k].op.fill == White && c[k].op.x == LabelAnchorX(count, i))
      <==> IsComplete(images, p.imageNums[i]) && LabelAt(p.texts, i) != ""
  {
    var c, count := Composition(measure, p, images), |p.imageNums|;
    if IsComplete(images, p.imageNums[i]) && LabelAt(p.texts, i) != "" {
      LabelDrawn(measure, p, images, i);
    }
    forall k | 0 <= k < |c| && c[k].op.FillText? && c[k].op.fill == White && c[k].op.x == LabelAnchorX(count, i)
      ensures IsComplete(images, p.imageNums[i]) && LabelAt(p.texts, i) != ""
    {
      FillFromSlice(measure, p, images, k);
      var j :| IsSliceFill(measure, p, images, c[k], j);
      assert c[k].op.x == LabelAnchorX(count, j);
      LabelAnchorInjective(count, i, j);
    }
  }

  /** Different slices have different label anchors. */
  lemma LabelAnchorInjective(count: nat, i: int, j: int)
    requires count >= 1 && LabelAnchorX(count, i) == LabelAnchorX(count, j)
    ensures i == j
  {
    if i < j {
      SliceXMonotone(count, i, j);
    } else if j < i {
      SliceXMonotone(count, j, i);
    }
  }

  /**
   * `q` asks for the same drawing as `p` except that slot `i` holds a picture
   * that is missing or not loaded.
   */
  predicate SlotEmptied(p: DrawCanvasParams, q: DrawCanvasParams, images: seq<Option<Image>>, i: int) {
    && q.texts == p.texts && q.topText == p.topText && q.showDividers == p.showDividers
    && |q.imageNums| == |p.imageNums| && 0 <= i < |p.imageNums|
    && !IsComplete(images, q.imageNums[i])
    && forall j :: 0 <= j < |p.imageNums| && j != i ==> q.imageNums[j] == p.imageNums[j]
  }

  /** Emptying slot `i` removes exactly slice `i`'s commands from the slice loop. */
  lemma SlicesWithout(measure: Measure, p: DrawCanvasParams, q: DrawCanvasParams,
                      images: seq<Option<Image>>, i: nat, n: nat)
    requires SlotEmptied(p, q, images, i) && i < n <= |p.imageNums|
    ensures |Slices(measure, p, images, i + 1)| <= |Slices(measure, p, images, n)|
    ensures Slices(measure, q, images, n)
         == Slices(measure, p, images, i) + Slices(measure, p, images, n)[|Slices(measure, p, images, i + 1)|..]
  {
    var a, b := SliceBlocks(measure, p, images), SliceBlocks(measure, q, images);
    forall j | 0 <= j < |a| && j != i ensures b[j] == a[j] {
      SliceCommandsElsewhere(measure, p, q, images, i, j);
    }
    assert Emptied(a, b, i);
    FlattenEmptied(a, b, i, n);
  }

  /** Slice `j`'s commands do not depend on what another slot holds. */
  lemma SliceCommandsElsewhere(measure: Measure, p: DrawCanvasParams, q: DrawCanvasParams,
                               images: seq<Option<Image>>, i: nat, j: nat)
    requires SlotEmptied(p, q, images, i) && j < |p.imageNums| && i != j
    ensures SliceCommands(measure, q, images, j) == SliceCommands(measure, p, images, j)
  {
    assert q.imageNums[j] == p.imageNums[j];
  }

  /**
   * A slice whose picture is missing or not loaded draws nothing: its block
   * of the composition is empty exactly then.
   */
  lemma SkippedSliceEmpty(measure: Measure, p: DrawCanvasParams, images: seq<Option<Image>>, i: nat)
    requires i < |p.imageNums|
    ensures SliceStart(measure, p, images, i) == SliceStart(measure, p, images, i + 1)
      <==> !IsComplete(images, p.imageNums[i])
  {
    SliceCommandsShape(measure, p, images, i);
    SliceStep(measure, p, images, i);
  }

  /**
   * The other slices are drawn the same whatever slot `i` holds: emptying it
   * (any `q` that differs from `p` only by a missing or unloaded picture in
   * slot `i`) only removes slice `i`'s block from the composition.
   */
  lemma SkippedSliceIsolated(measure: Measure, p: DrawCanvasParams, q: DrawCanvasParams,
                             images: seq<Option<Image>>, i: nat)
    requires SlotEmptied(p, q, images, i)
    ensures var c := Composition(measure, p, images);
      && SliceStart(measure, p, images, i) <= SliceStart(measure, p, images, i + 1) <= |c|
      && Composition(measure, q, images)
         == c[..SliceStart(measure, p, images, i)] + c[SliceStart(measure, p, images, i + 1)..]
  {
    var count := |p.imageNums|;
    CompositionWithout(measure, p, q, images, i);
    SlicesPrefix(measure, p, images, i, count);
    SliceStep(measure, p, images, i);
    var head, all, tail := Head(measure, p), Slices(measure, p, images, count), Tail(p);
    CutOutAt(Composition(measure, p, images), head, all, tail, Slices(measure, p, images, i),
             |Slices(measure, p, images, i + 1)|,
             SliceStart(measure, p, images, i), SliceStart(measure, p, images, i + 1),
             Composition(measure, q, images));
  }

  lemma CompositionWithout(measure: Measure, p: DrawCanvasParams, q: DrawCanvasParams,
                           images: seq<Option<Image>>, i: nat)
    requires SlotEmptied(p, q, images, i)
    ensures |Slices(measure, p, images, i + 1)| <= |Slices(measure, p, images, |p.imageNums|)|
    ensures Composition(measure, q, images)
         == Head(measure, p)
            + (Slices(measure, p, images, i)
               + Slices(measure, p, images, |p.imageNums|)[|Slices(measure, p, images, i + 1)|..])
            + Tail(p)
  {
    SlicesWithout(measure, p, q, images, i, |p.imageNums|);
    assert Head(measure, q) == Head(measure, p);
    assert Tail(q) == Tail(p);
  }

  /**
   * Exactly `count - 1` dividers when they are asked for and there are two
   * slices or more, none otherwise, and no other black rectangle is drawn.
   */
  lemma DividerCount(measure: Measure, p: DrawCanvasParams, images: seq<Option<Image>>)
    ensures |Tail(p)| == if p.showDividers && |p.imageNums| > 1 then |p.imageNums| - 1 else 0
    ensures BlackFills(Composition(measure, p, images)) == |Tail(p)|
  {
    var count := |p.imageNums|;
    DividersShape(SliceWidth(count), ImageOffsetY(p.topText), [], count);
    OpeningKinds(measure, p);
    DividerKinds(p);
    SlicesNoFills(measure, p, images);
    var head, all, tail := Head(measure, p), Slices(measure, p, images, count), Tail(p);
    BlackFillsAppend(head, all);
    BlackFillsAppend(head + all, tail);
    assert Composition(measure, p, images) == head + all + tail;
  }

  /**
   * Divider `i` is an unclipped black bar `DIVIDER_WIDTH` wide centred on the
   * boundary between slices `i - 1` and `i`, as tall as the image area and
   * starting at its top.
   */
  lemma DividerPlacement(p: DrawCanvasParams, i: int)
    requires p.showDividers && 1 <= i < |p.imageNums|
    ensures i - 1 < |Tail(p)|
    ensures var count, d := |p.imageNums|, Tail(p)[i - 1];
      && d.op.FillRect? && d.op.fill == Black && d.clip == []
      && d.op.rect.x + d.op.rect.w / 2.0 == SliceX(count, i)
      && d.op.rect.w == DIVIDER_WIDTH
      && d.op.rect.y == ImageOffsetY(p.topText) && d.op.rect.h == CANVAS_HEIGHT
  {
    var count, sw, offY := |p.imageNums|, SliceWidth(|p.imageNums|), ImageOffsetY(p.topText);
    DividerAt(sw, offY, [], count, i);
    assert Tail(p) == Dividers(sw, offY, [], count);
  }

  /** Divider `i` of `Dividers(n)`, one index at a time. */
  lemma {:induction false} DividerAt(sliceWidth: real, imageOffsetY: real, clip: seq<Rect>, n: int, i: int)
    requires 1 <= i < n
    ensures |Dividers(sliceWidth, imageOffsetY, clip, n)| == n - 1
    ensures Dividers(sliceWidth, imageOffsetY, clip, n)[i - 1] == DividerCommand(sliceWidth, i, imageOffsetY, clip)
    decreases n
  {
    var prev := Dividers(sliceWidth, imageOffsetY, clip, n - 1);
    assert Dividers(sliceWidth, imageOffsetY, clip, n) == prev + [DividerCommand(sliceWidth, n - 1, imageOffsetY, clip)];
    if i < n - 1 {
      DividerAt(sliceWidth, imageOffsetY, clip, n - 1, i);
    } else if n - 1 > 1 {
      DividerAt(sliceWidth, imageOffsetY, clip, n - 1, 1);
    }
  }
}
