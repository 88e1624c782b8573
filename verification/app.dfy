/**
 * The editor state of src/App.tsx: how many parts the picture is cut into and
 * which rating picture each part shows, the two input handlers that change
 * them, and the component's own (older) slice-drawing routine.
 *
 * `parseInt` is not modelled: a handler receives what it returns, `None`
 * standing for `NaN`.
 */
module App {
  import opened Wrappers
  import opened Canvas2D
  import opened Constants
  import opened SeqFacts
  import CanvasDrawing

  const MIN_PARTS := 1
  const MAX_PARTS := 11
  const MIN_RATING := 1
  const MAX_RATING := 10
  const DEFAULT_RATING := 10

  // ---------------------------------------------------------------------------
  // The two clamps

  /**
   * `Math.max(MIN_PARTS, Math.min(parseInt(v) || MIN_PARTS, MAX_PARTS))`:
   * `NaN` and 0 are falsy and fall back to the minimum.
   */
  function ClampPartCount(parsed: Option<int>): (n: int)
    ensures MIN_PARTS <= n <= MAX_PARTS
    ensures parsed.Some? && MIN_PARTS <= parsed.value <= MAX_PARTS ==> n == parsed.value
    ensures parsed.Some? && parsed.value > MAX_PARTS ==> n == MAX_PARTS
    ensures parsed.None? || parsed.value < MIN_PARTS ==> n == MIN_PARTS
  {
    var count := if parsed.None? || parsed.value == 0 then MIN_PARTS else parsed.value;
    Max(MIN_PARTS, Min(count, MAX_PARTS))
  }

  /**
   * `Math.max(MIN_RATING, Math.min(parseInt(v) || DEFAULT_RATING, MAX_RATING))`:
   * `NaN` and 0 fall back to the default rating, which is the maximum, while
   * a negative number is raised to the minimum.
   */
  function ClampRating(parsed: Option<int>): (r: int)
    ensures MIN_RATING <= r <= MAX_RATING
    ensures parsed.Some? && MIN_RATING <= parsed.value <= MAX_RATING ==> r == parsed.value
    ensures parsed.Some? && parsed.value > MAX_RATING ==> r == MAX_RATING
    ensures parsed.Some? && parsed.value < 0 ==> r == MIN_RATING
    ensures parsed.None? || parsed.value == 0 ==> r == DEFAULT_RATING
  {
    var num := if parsed.None? || parsed.value == 0 then DEFAULT_RATING else parsed.value;
    Max(MIN_RATING, Min(num, MAX_RATING))
  }

  function Min(a: int, b: int): int {
    if a <= b then a else b
  }

  function Max(a: int, b: int): int {
    if a >= b then a else b
  }

  // ---------------------------------------------------------------------------
  // Resizing the ratings list

  /**
   * The two loops of `handlePartCountChange`: push the default rating until
   * the list is long enough, then pop until it is short enough. The ratings
   * of the parts that remain are kept and every new part gets the default.
   */
  method ResizeRatings(nums: seq<int>, n: nat) returns (r: seq<int>)
    ensures |r| == n
    ensures forall j :: 0 <= j < n && j < |nums| ==> r[j] == nums[j]
    ensures forall j :: |nums| <= j < n ==> r[j] == DEFAULT_RATING
  {
    r := nums;
    while |r| < n
      invariant |nums| <= |r| <= if n < |nums| then |nums| else n
      invariant r[..|nums|] == nums
      invariant forall j :: |nums| <= j < |r| ==> r[j] == DEFAULT_RATING
      decreases n - |r|
    {
      r := r + [DEFAULT_RATING];
    }
    while |r| > n
      invariant n <= |r|
      invariant forall j :: 0 <= j < |r| && j < |nums| ==> r[j] == nums[j]
      invariant forall j :: |nums| <= j < |r| ==> r[j] == DEFAULT_RATING
    {
      r := r[..|r| - 1];
    }
  }

  // ---------------------------------------------------------------------------
  // The legacy slice drawing of the component

  /**
   * One turn of the component's own slice loop: a loaded picture is drawn over
   * the whole canvas, clipped to its slice; anything else draws nothing.
   */
  function LegacySlice(images: seq<Option<Image>>, nums: seq<int>, i: int, clip: seq<Rect>): seq<Cmd>
    requires 0 <= i < |nums|
  {
    var count := |nums|;
    var img := CanvasDrawing.ImageAt(images, nums[i]);
    if CanvasDrawing.IsComplete(images, nums[i]) then
      [LegacyImageCommand(img.value, CanvasDrawing.SliceX(count, i), CanvasDrawing.SliceWidth(count), clip)]
    else []
  }

  /** The picture drawn over the whole canvas, clipped to the slice from `x` that is `sliceWidth` wide. */
  function LegacyImageCommand(img: Image, x: real, sliceWidth: real, clip: seq<Rect>): Cmd {
    Cmd(DrawImage(img, Rect(0.0, 0.0, CANVAS_WIDTH, CANVAS_HEIGHT)), clip + [Rect(x, 0.0, sliceWidth, CANVAS_HEIGHT)])
  }

  function LegacyBlocks(images: seq<Option<Image>>, nums: seq<int>, clip: seq<Rect>): seq<seq<Cmd>> {
    seq(|nums|, j requires 0 <= j < |nums| => LegacySlice(images, nums, j, clip))
  }

  /** What the component's `draw` adds to the canvas: a white fill, then the slices left to right. */
  function LegacyFrame(images: seq<Option<Image>>, nums: seq<int>, clip: seq<Rect>): seq<Cmd> {
    [Cmd(FillRect(Rect(0.0, 0.0, CANVAS_WIDTH, CANVAS_HEIGHT), White), clip)]
    + Flatten(LegacyBlocks(images, nums, clip))
  }

  /**
   * The compositor reproduces the component's own drawing: with no title, no
   * labels and no dividers, `drawCanvas` issues exactly the commands of the
   * legacy `draw`, whatever the font metrics.
   */
  lemma LegacyIsPlainComposition(measure: Measure, images: seq<Option<Image>>, nums: seq<int>)
    ensures LegacyFrame(images, nums, [])
         == CanvasDrawing.Composition(measure, CanvasDrawing.DrawCanvasParams(nums, [], "", false), images)
  {
    var p := CanvasDrawing.DrawCanvasParams(nums, [], "", false);
    var legacy, blocks := LegacyBlocks(images, nums, []), CanvasDrawing.SliceBlocks(measure, p, images);
    assert !CanvasDrawing.HasTopText("") by {
      assert CanvasDrawing.Trim("") == "";
    }
    forall j | 0 <= j < |nums| ensures legacy[j] == blocks[j] {
      assert CanvasDrawing.LabelAt(p.texts, j) == "";
    }
    assert legacy == blocks;
    assert blocks[..|nums|] == blocks;
    assert CanvasDrawing.Head(measure, p) == [CanvasDrawing.BackgroundCommand(CANVAS_HEIGHT, [])];
    assert CanvasDrawing.Tail(p) == [];
  }

  /** One turn of the component's slice loop. */
  method DrawLegacySlice(ctx: Context, images: seq<Option<Image>>, nums: seq<int>, i: nat)
    requires i < |nums|
    modifies ctx
    ensures ctx.log == old(ctx.log) + LegacySlice(images, nums, i, old(ctx.clip))
    ensures ctx.Snapshot() == old(ctx.Snapshot()) && ctx.stack == old(ctx.stack)
  {
    var sliceWidth := CanvasDrawing.SliceWidth(|nums|);
    var img := CanvasDrawing.ImageAt(images, nums[i]);
    if CanvasDrawing.IsComplete(images, nums[i]) {
      var x := sliceWidth * i as real;
      assert x == CanvasDrawing.SliceX(|nums|, i);
      DrawLegacyImage(ctx, img.value, x, sliceWidth);
    } else {
      assert LegacySlice(images, nums, i, ctx.clip) == [];
    }
  }

  /** Save, clip to the slice, draw the picture over the whole canvas, restore. */
  method DrawLegacyImage(ctx: Context, img: Image, x: real, sliceWidth: real)
    modifies ctx
    ensures ctx.log == old(ctx.log) + [LegacyImageCommand(img, x, sliceWidth, old(ctx.clip))]
    ensures ctx.Snapshot() == old(ctx.Snapshot()) && ctx.stack == old(ctx.stack)
  {
    ctx.Save();
    ctx.ClipRect(Rect(x, 0.0, sliceWidth, CANVAS_HEIGHT));
    ctx.DrawImage(img, Rect(0.0, 0.0, CANVAS_WIDTH, CANVAS_HEIGHT));
    ctx.Restore();
  }

  // ---------------------------------------------------------------------------
  // The component state

  class App {
    var partCount: int
    var imageNums: seq<int>

    /** One rating per part, each between the minimum and the maximum, and a part count in range. */
    ghost predicate Valid()
      reads this
    {
      && MIN_PARTS <= partCount <= MAX_PARTS
      && |imageNums| == partCount
      && forall j :: 0 <= j < |imageNums| ==> MIN_RATING <= imageNums[j] <= MAX_RATING
    }

    /** Two parts, showing pictures 1 and 2. */
    constructor ()
      ensures Valid()
      ensures partCount == 2 && imageNums == [1, 2]
    {
      partCount := 2;
      imageNums := [1, 2];
    }

    /**
     * `handlePartCountChange`: the part count becomes the clamped input and
     * the ratings list is cut or padded with the default rating to match.
     */
    method HandlePartCountChange(parsed: Option<int>)
      requires Valid()
      modifies this
      ensures Valid()
      ensures partCount == ClampPartCount(parsed)
      ensures forall j :: 0 <= j < partCount && j < |old(imageNums)| ==> imageNums[j] == old(imageNums)[j]
      ensures forall j :: |old(imageNums)| <= j < partCount ==> imageNums[j] == DEFAULT_RATING
    {
      var clampedCount := ClampPartCount(parsed);
      partCount := clampedCount;
      var newImageNums := ResizeRatings(imageNums, clampedCount);
      imageNums := newImageNums;
    }

    /** `handleImageNumChange`: part `index` gets the clamped rating; nothing else changes. */
    method HandleImageNumChange(index: nat, parsed: Option<int>)
      requires Valid() && index < |imageNums|
      modifies this
      ensures Valid()
      ensures partCount == old(partCount)
      ensures imageNums == old(imageNums)[index := ClampRating(parsed)]
    {
      var num := ClampRating(parsed);
      imageNums := imageNums[index := num];
    }

    /**
     * The component's `draw`: with no context it does nothing; otherwise it
     * fills the canvas white and draws each loaded picture clipped to its
     * slice. The fill style is left white; every other part of the drawing
     * state, the clip and the save stack are left as it found them.
     */
    method Draw(ctx: Context?, images: seq<Option<Image>>)
      modifies ctx
      ensures ctx != null ==>
        && ctx.log == old(ctx.log) + LegacyFrame(images, imageNums, old(ctx.clip))
        && ctx.Snapshot() == old(ctx.Snapshot()).(fillStyle := White) && ctx.stack == old(ctx.stack)
    {
      if ctx == null {
        return;
      }
      var count := |imageNums|;
      ctx.fillStyle := White;
      ctx.FillRect(Rect(0.0, 0.0, CANVAS_WIDTH, CANVAS_HEIGHT));
      ghost var clip := ctx.clip;
      ghost var start := ctx.log;
      ghost var blocks := LegacyBlocks(images, imageNums, clip);
      var i := 0;
      while i < count
        invariant 0 <= i <= count
        invariant ctx.Snapshot() == old(ctx.Snapshot()).(fillStyle := White) && ctx.stack == old(ctx.stack)
        invariant ctx.log == start + Flatten(blocks[..i])
      {
        DrawLegacySlice(ctx, images, imageNums, i);
        FlattenSnoc(blocks, i);
        AppendAssoc(start, Flatten(blocks[..i]), blocks[i]);
        i := i + 1;
      }
      assert blocks[..count] == blocks;
    }
  }
}
