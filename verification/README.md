# Horse-meme compositor, modelled in Dafny

The application cuts a 1344 × 768 canvas into N equal vertical slices. Each
slice shows one numbered "rating" picture, clipped to the slice. A slice may
carry an outlined label, a title band may sit above the pictures, and black
dividers may separate the slices. This project models the three places where
that logic lives, and proves what they draw and how they keep their state.

- `src/canvas/drawCanvas.ts` becomes module `CanvasDrawing` (draw_canvas.dfy).
  - The browser canvas is replaced by `Canvas2D` (canvas2d.dfy). A `Context`
    keeps the drawing state and, in place of pixels, a log of draw commands.
    Each command records the style and the clip in force when it ran.
  - `DrawCanvas` and its helpers are methods that append to that log.
  - `Composition` is the specification of what one call leaves on a freshly
    sized canvas. The lemmas state its layout: the title band, the slice
    tiling, skipped slices, labels and dividers.
- `src/canvas/textUtils.ts` becomes module `TextUtils` (text_utils.dfy).
  - The shrink loop of `getFontSizeToFit` is a method proved against the
    function `Shrink`.
  - `drawTextWithStroke` is a method whose contract gives the stroke-then-fill
    pair and the option defaults.
- `src/App.tsx` becomes module `App` (app.dfy).
  - The clamps of the two input handlers are pure functions.
  - The push/pop resize loop is a method.
  - The component state is a class with `partCount` and `imageNums`.
  - The component's own slice loop `draw` is proved to issue exactly what
    `drawCanvas` issues with no title, no labels and no dividers.

Supporting modules:
- `Wrappers`: `Option`.
- `Constants`: the canvas size, the title-band height and the divider width.
- `SeqFacts`: generic facts about sequences, including `Flatten`, which lays
  out a sequence of blocks end to end.

Where the code and its doc comment disagree, the model follows the code. The
doc comment of `getFontSizeToFit` (textUtils.ts lines 2-3) says the result
lies between `minFontSize` and `maxFontSize`. The code returns an estimate at
or below the minimum unchanged, and `TextUtils.FitMayFallBelowMinimum` shows
an input where this happens.

## Model

| member | source | states |
|---|---|---|
| TextUtils.Estimate | src/canvas/textUtils.ts:12 | The first guess never exceeds `maxFontSize`. It is either that maximum, or the size at which `len × 0.6 × size` equals `maxWidth`. It is the latter whenever that size is at most the maximum. |
| TextUtils.Shrink | src/canvas/textUtils.ts:16-20 | The shrink loop as a function. Its result is at most the start size. At the result the text fits or the size is at the minimum or below. From a start above the minimum, the result stays above `minFontSize - 2`. |
| TextUtils.ShrinkSteps | src/canvas/textUtils.ts:16-20 | The loop ends after some number k of steps of exactly 2. It does not stop at any earlier step. |
| TextUtils.ShrinkIsFirstStop | src/canvas/textUtils.ts:16-20 | Conversely, if the first stopping step is k, the result is the start minus 2k. |
| TextUtils.FontSizeToFit | src/canvas/textUtils.ts:22 | The returned size never exceeds `maxFontSize`. |
| TextUtils.FitBounds | src/canvas/textUtils.ts:11-22 | The result is the estimate lowered by a whole number of steps of 2. At the result the text fits or the size is at the minimum or below. An estimate that already stops is returned unchanged. An estimate above the minimum ends strictly above `minFontSize - 2`. |
| TextUtils.FitMayFallBelowMinimum | src/canvas/textUtils.ts:2-16 | Ten characters in 30 units give 5, below the default minimum of 12, whatever the text measures. |
| TextUtils.FitNotMonotoneInWidth | src/canvas/textUtils.ts:12-22 | More room can give a smaller size. With text measuring 6.5 units per point, ten characters get 24 in 156 units but only 22.1 in 156.6 units. The reason is that the loop steps down by 2 from an estimate that itself moves with the width. |
| TextUtils.GetFontSizeToFit | src/canvas/textUtils.ts:5-23 | The loop returns `FontSizeToFit` of its inputs, under the context's own text metrics. It leaves the context font bold at that size. |
| TextUtils.DrawTextWithStroke | src/canvas/textUtils.ts:28-57 | Applies each option or its default: white fill, black stroke, line width 2, centred, top baseline. Then it logs a stroke and a fill of the same text at the same point, in that order. The font and clip are unchanged. |
| CanvasDrawing.TrimStartEmptyIffBlank | src/canvas/drawCanvas.ts:119 | Stripping leading whitespace leaves nothing exactly when the string is all whitespace. |
| CanvasDrawing.TrimEndEmptyIffBlank | src/canvas/drawCanvas.ts:119 | Stripping trailing whitespace leaves nothing exactly when the string is all whitespace. |
| CanvasDrawing.TrimmedEmptyIffBlank | src/canvas/drawCanvas.ts:119 | `trim()` leaves nothing exactly when the title is all whitespace. |
| CanvasDrawing.HeightFollowsTitle | src/canvas/drawCanvas.ts:119-123 | A title that is not all whitespace makes the canvas `CANVAS_HEIGHT + TOP_TEXT_AREA_HEIGHT` high and puts the pictures at `TOP_TEXT_AREA_HEIGHT`. Otherwise the canvas is `CANVAS_HEIGHT` high and the pictures start at 0. |
| CanvasDrawing.SliceXMonotone | src/canvas/drawCanvas.ts:140 | Slice left edges strictly increase with the index. |
| CanvasDrawing.SlicesTileCanvas | src/canvas/drawCanvas.ts:118-140 | The first slice starts at 0 and slice `count` starts at `CANVAS_WIDTH`. Every point of `[0, CANVAS_WIDTH)` lies in exactly one slice `[sliceWidth·i, sliceWidth·(i+1))`. |
| CanvasDrawing.DrawTopTextArea | src/canvas/drawCanvas.ts:20-39 | Logs a white band `CANVAS_WIDTH × TOP_TEXT_AREA_HEIGHT`, then the title filled in black. The title is centred at the middle of the band, in bold at the size fitted to the width less 2 × 20. The context is left with a black fill, centred alignment, a middle baseline and that bold font. Everything else, including the clip and the save stack, is unchanged. |
| CanvasDrawing.DrawSegmentImage | src/canvas/drawCanvas.ts:44-67 | Logs one picture command onto the full image area, clipped to the slice rectangle. The drawing state and the save stack come back as they were. |
| CanvasDrawing.DrawSegmentLabel | src/canvas/drawCanvas.ts:72-88 | Logs the label's stroke and fill, anchored at the middle of the slice and 20 below the image top. The font is bold at the size fitted to the slice width less 16. The stroke width is 2, because the outlined-text default replaces the width set from the font size. The context is left with a white fill, a black stroke, line width 2, centred alignment, a top baseline and the label font. The clip and the save stack are unchanged. |
| CanvasDrawing.DrawDividers | src/canvas/drawCanvas.ts:93-104 | Logs `Dividers`: one black bar for each `i` in `1 .. count-1`, in order. The fill is left black, and the rest of the drawing state and the save stack are unchanged. |
| CanvasDrawing.DrawSlice | src/canvas/drawCanvas.ts:136-148 | One turn of the slice loop logs exactly `SliceCommands`. Because the picture and the label are each drawn between a save and a restore, the whole drawing state comes back as it was: styles, font, alignment, an empty clip and an empty save stack. |
| CanvasDrawing.DrawSlices | src/canvas/drawCanvas.ts:135-148 | The whole slice loop logs the turns' commands one after the other. The drawing state, the empty clip and the empty save stack come back unchanged. |
| CanvasDrawing.DrawCanvas | src/canvas/drawCanvas.ts:109-153 | Without a 2D context the canvas keeps its size. Otherwise the canvas becomes `CANVAS_WIDTH × TotalHeight` and its log is exactly `Composition`, because the resize clears earlier drawing. Every save is restored, so the save stack and the clip end empty. The context ends in `FinalState`. The fill is black when there is a title or dividers are drawn, and otherwise white from the background. The alignment, baseline and font are the title's when there is a title, and otherwise the reset defaults. The stroke style and line width are always the reset defaults. |
| CanvasDrawing.SlicesPrefix | src/canvas/drawCanvas.ts:136-148 | The commands of the first m turns are a prefix of those of the first n turns, for m ≤ n. |
| CanvasDrawing.SliceBlock | src/canvas/drawCanvas.ts:136-148 | Slice i's commands occupy the composition from `SliceStart(i)` to `SliceStart(i+1)`. |
| CanvasDrawing.CompositionOpening | src/canvas/drawCanvas.ts:128-133 | The composition opens with a white fill of the whole canvas. With a title, the white band and the centred black title follow, and the slices start at command 3. Without a title they start at command 1. |
| CanvasDrawing.CompositionOrder | src/canvas/drawCanvas.ts:128-152 | Slice blocks follow each other in left-to-right index order. The dividers close the composition. |
| CanvasDrawing.TailBlock | src/canvas/drawCanvas.ts:150-152 | The dividers are the last commands of the composition. |
| CanvasDrawing.SliceCommandsShape | src/canvas/drawCanvas.ts:136-147 | A turn logs nothing exactly when its picture is missing or still loading. Otherwise it logs the picture first, then the label's stroke and fill when the label is truthy: three commands, or one without a label. |
| CanvasDrawing.SlicesCommandKind | src/canvas/drawCanvas.ts:136-148 | Each command of the slice loop is the picture, the label stroke or the label fill of some loaded slice, and a label only for a truthy one. None is a rectangle fill. |
| CanvasDrawing.SlicesNoFills | src/canvas/drawCanvas.ts:136-148 | The slice loop draws no black rectangle. |
| CanvasDrawing.DividersShape | src/canvas/drawCanvas.ts:100-103 | Dividers 1 .. n-1 are n-1 commands, the i-th being divider i. All are black fills. |
| CanvasDrawing.ImageFromSlice | src/canvas/drawCanvas.ts:136-141 | Each picture command of the composition is the picture command of some loaded slice. |
| CanvasDrawing.ImagesShareDestination | src/canvas/drawCanvas.ts:53-65 | Every picture is drawn onto `(0, imageOffsetY, CANVAS_WIDTH, CANVAS_HEIGHT)`, whatever its slice. Its only clip is the rectangle of the loaded slice it belongs to. |
| CanvasDrawing.LabelDrawn | src/canvas/drawCanvas.ts:143-146 | A loaded slice with a truthy label gets a black stroke of width 2 and then a white fill of the label. Both are centred at `(x + sliceWidth/2, imageOffsetY + 20)` with a top baseline, bold at the size fitted to `sliceWidth - 16`, and unclipped. |
| CanvasDrawing.LabelDrawnIff | src/canvas/drawCanvas.ts:143-146 | A stroke at slice i's label anchor appears if and only if slice i's picture has loaded and its label is truthy. |
| CanvasDrawing.StrokeFromSlice | src/canvas/drawCanvas.ts:143-146 | Every stroke of the composition is the label stroke of some loaded, labelled slice. |
| CanvasDrawing.FillFromSlice | src/canvas/drawCanvas.ts:143-146 | Every white text fill of the composition is the label fill of some loaded, labelled slice. |
| CanvasDrawing.TextFillSource | src/canvas/drawCanvas.ts:128-146 | Every text fill of the composition is either the title, third in the opening when there is a title, or the label fill of some loaded, labelled slice. |
| CanvasDrawing.LabelFilledIff | src/canvas/drawCanvas.ts:143-146 | A white fill at slice i's label anchor appears if and only if slice i's picture has loaded and its label is truthy. |
| CanvasDrawing.LabelAnchorInjective | src/canvas/drawCanvas.ts:85 | Different slices have different label anchors. |
| CanvasDrawing.SkippedSliceEmpty | src/canvas/drawCanvas.ts:136-138 | A slice's block is empty exactly when its picture is missing or not loaded. |
| CanvasDrawing.SlicesWithout | src/canvas/drawCanvas.ts:136-138 | Emptying slot i removes exactly slice i's commands from the slice loop. |
| CanvasDrawing.CompositionWithout | src/canvas/drawCanvas.ts:136-138 | With slot i emptied, the composition is the same opening, the slice loop without slice i's commands, and the same dividers. |
| CanvasDrawing.SkippedSliceIsolated | src/canvas/drawCanvas.ts:136-138 | Emptying slot i cuts exactly slice i's block out of the composition. Every other slice is drawn the same. |
| CanvasDrawing.DividerCount | src/canvas/drawCanvas.ts:150-152 | There are `count - 1` dividers when they are asked for and there are two slices or more, and none otherwise. They are the composition's only black rectangles. |
| CanvasDrawing.DividerPlacement | src/canvas/drawCanvas.ts:100-103 | Divider i is an unclipped black bar `DIVIDER_WIDTH` wide, centred on `sliceWidth·i`, from `imageOffsetY` and `CANVAS_HEIGHT` high. |
| CanvasDrawing.DividerAt | src/canvas/drawCanvas.ts:100-103 | The i-th command of `Dividers` is divider i. |
| App.ClampPartCount | src/App.tsx:80-81 | The part count lies in [1, 11]. A value in range is kept and one above 11 becomes 11. A parse failure (`NaN`), 0 or a negative number becomes 1. |
| App.ClampRating | src/App.tsx:90 | The rating lies in [1, 10]. A value in range is kept and one above 10 becomes 10. A negative number becomes 1, but a parse failure or 0 becomes the default 10. |
| App.ResizeRatings | src/App.tsx:83-85 | The result has length n. It keeps the old ratings of the first `min(n, old length)` parts, and every added part has the default rating 10. |
| App.LegacyIsPlainComposition | src/App.tsx:35-59 | The component's own `draw` issues exactly what `drawCanvas` issues with no title, no labels and no dividers, whatever the font metrics. |
| App.DrawLegacySlice | src/App.tsx:47-58 | A turn of the component's loop draws a loaded picture over the whole canvas, clipped to `(sliceWidth·i, 0, sliceWidth, CANVAS_HEIGHT)`. Otherwise it draws nothing. The whole drawing state and the save stack come back as they were. |
| App.DrawLegacyImage | src/App.tsx:52-57 | Save, clip, draw and restore log one picture command clipped to the slice. The whole drawing state and the save stack come back as they were. |
| App.App.constructor | src/App.tsx:17-18 | The initial state has two parts showing pictures 1 and 2, and satisfies `Valid`. |
| App.App.HandlePartCountChange | src/App.tsx:79-87 | The part count becomes the clamped input. The ratings list is cut or padded with 10s to that length, and earlier ratings are kept. `Valid` is preserved: the count is in range, one rating per part, each in [1, 10]. |
| App.App.HandleImageNumChange | src/App.tsx:89-94 | Only the rating at `index` changes, to the clamped input. The length and the part count stay the same, and `Valid` is preserved. |
| App.App.Draw | src/App.tsx:35-59 | Without a context nothing changes. Otherwise the log gains `LegacyFrame`: a white fill of `CANVAS_WIDTH × CANVAS_HEIGHT`, then each loaded slice left to right. The fill style is left white. Every other style, the font, the alignment, the clip and the save stack are left as they were. |

## Left out

- Image preloading is not modelled: `src/hooks/usePreloadImages.ts` and the effect at src/App.tsx:22-33, with their asynchronous `onload` callbacks and network fetches. The picture table, with each picture's loaded flag, is a parameter: `images: seq<Option<Image>>`, read through `getImages()` or `imagesRef`.
- `exportToPng` (src/App.tsx:65-77) is left out: it is Blob, object-URL and DOM I/O.
- JSX rendering and the React wiring (`useEffect`, `useCallback`, re-rendering) are left out. A `setState` call is modelled as an immediate assignment to the class field.
- Pixels and real clipping are not modelled. The canvas is a command log, and a clip is the list of rectangles intersected so far.
- The font is a record, not the CSS string `bold <size>px Arial`.
- `ctx.measureText` is the uninterpreted function `measure` of the context. The model relies on no property of it, not even monotonicity in the font size. So the model states no monotonicity of the fitted size, neither in the available width nor in the text length. A monotone `measure` would not give one either: `TextUtils.FitNotMonotoneInWidth` shows more room giving a smaller size for a linear `measure`.
- JavaScript numbers are modelled as unbounded exact `real`s. IEEE rounding, `NaN` and `Infinity` are not modelled.
- TextUtils.Estimate: for empty text the source divides by zero. The model returns `maxFontSize`, which is the source's result for a positive width. For a width of zero or below, the source gives `NaN` or a negative infinity, and the model does not capture that.
- CanvasDrawing.SliceWidth: with no slices the source divides by zero. The value is then never used, and the model takes 0.
- Text lengths count characters, not UTF-16 code units.
- `parseInt` is not modelled: the handlers receive its result as `Option<int>`, with `None` for `NaN`.
- The module `src/constants` is not part of this model. The canvas width and height take the values src/App.tsx:4-5 declares. The title-band height and the divider width are known only to be positive.
- `canvas.getContext('2d')` is the canvas's possibly-null `context` field.
- `Image.complete` stands for "finished loading and drawable". A browser also reports `complete` for a picture whose load failed, and `drawImage` then throws. At src/canvas/drawCanvas.ts:55 and src/App.tsx:56 that exception would end the drawing after a `save()`, so later slices and the dividers would not be drawn. This broken-picture path is not modelled: the model draws every complete picture, and `Composition` and `LegacyFrame` assume none of them is broken.
- Assigning `ctx.font` a string the browser cannot parse is ignored by the browser. This happens with a negative fitted size, when a slice is narrower than 16, which takes more than 84 slices. The model logs the label in `BoldFont` of that size instead of the previous font. Unparsable font assignments are not modelled.
- App.App.HandleImageNumChange: requires `index < |imageNums|`. The only caller passes indices of `imageNums.map`. An index equal to the length would append a rating, so the list would no longer have one rating per part (`partCount == |imageNums|` would fail). A larger index would make the JavaScript array sparse. Neither case is modelled.
- App.ResizeRatings: takes a natural `n`, because the handler passes only clamped counts of at least 1. With a negative target the source's pop loop would never end.
