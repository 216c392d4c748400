/**
 * `FrameTimeDisplay`: the scrolling frame-time graph.  Two time bars of
 * `Width` columns each form a ring of `2 * Width` columns; `currentX` is
 * the column drawn next.  For every frame taken from the monitor, one
 * column of `Height` pixels (4 bytes each, in `textureData`) is painted
 * from the bottom up, one band per frame-time type with the `Empty`
 * background on top, uploaded into the current bar, and the cursor moves
 * on.  The byte values of a pixel (colour and fading alpha) are given by
 * `pixel`, a parameter of the display.
 */
module FrameTimes {
  import opened LinearAlgebra
  import opened Options

  const Width: int := 800
  const Height: int := 100
  /** `timeBars.Length`. */
  const TimeBarCount: int := 2
  /** `visible_range`: the milliseconds the full height stands for. */
  const VisibleRange: real := 20.0
  /** `scale`: pixels per millisecond, `HEIGHT / visible_range`. */
  const Scale: real := Height as real / VisibleRange

  /** The kinds of time a frame reports, in declaration order; `Empty` is last and is no real kind. */
  datatype FrameTimeType = Update | Draw | SwapBuffer | Debug | Sleep | Scheduler | BetweenFrames | Empty

  /** The kinds in the order the per-frame loop visits them, `0` up to `Empty`. */
  const AllTypes: seq<FrameTimeType> := [Update, Draw, SwapBuffer, Debug, Sleep, Scheduler, BetweenFrames, Empty]

  /** One frame from the monitor: the milliseconds spent per kind (some kinds may be missing). */
  datatype FrameStatistics = FrameStatistics(collectedTimes: map<FrameTimeType, real>)

  /** The four bytes of one pixel. */
  datatype Rgba = Rgba(r: bv8, g: bv8, b: bv8, a: bv8)

  /** A column handed to a time bar's texture: which bar, which column, and the bytes. */
  datatype Upload = Upload(bar: int, column: int, data: seq<bv8>)

  datatype Key = ControlLeft | OtherKey(code: nat)

  /** The pixel stored in rows `row`, bytes `4 * row` to `4 * row + 3`. */
  function PixelAt(data: seq<bv8>, row: int): Rgba
    requires 0 <= row && 4 * row + 3 < |data|
  {
    Rgba(data[4 * row], data[4 * row + 1], data[4 * row + 2], data[4 * row + 3])
  }

  /**
   * The number of pixels `addArea` wants to paint for a kind, or `None`
   * when the frame has no time for it: all remaining rows for `Empty`,
   * otherwise the milliseconds times `Scale`, truncated.
   */
  function DrawHeight(frame: Option<FrameStatistics>, t: FrameTimeType, currentHeight: int): (r: Option<int>)
    requires t == Empty || frame.Some?
    ensures t == Empty ==> r == Some(currentHeight)
    ensures t != Empty ==> (r.Some? <==> t in frame.value.collectedTimes)
  {
    if t == Empty then Some(currentHeight)
    else if t in frame.value.collectedTimes then Some(Truncate(frame.value.collectedTimes[t] * Scale))
    else None
  }

  /**
   * The height left after painting `drawHeight` rows below `currentHeight`:
   * the band stops at row 0, and a negative `drawHeight` never reaches 0
   * on the way down, so it paints every remaining row.
   */
  function AreaTop(drawHeight: int, currentHeight: int): (r: int)
    ensures currentHeight <= 0 ==> r == currentHeight
    ensures currentHeight > 0 ==> 0 <= r <= currentHeight
    ensures currentHeight > 0 && 0 <= drawHeight ==> r == currentHeight - Min(drawHeight, currentHeight)
    ensures currentHeight > 0 && drawHeight < 0 ==> r == 0
    ensures drawHeight == currentHeight ==> r == Min(0, currentHeight)
  {
    if currentHeight <= 0 then currentHeight
    else if 0 <= drawHeight < currentHeight then currentHeight - drawHeight
    else 0
  }

  function Min(a: int, b: int): int { if a <= b then a else b }

  /**
   * The height after kind `t` has painted its band of `frame` on top of
   * height `h`: `Empty` fills what is left, a kind without a time paints
   * nothing, and any other kind takes its milliseconds times `Scale`,
   * truncated, up to the rows left, or all of them when that is negative.
   */
  function NextTop(frame: FrameStatistics, t: FrameTimeType, h: int): (r: int)
    requires 0 <= h
    ensures 0 <= r <= h
    ensures t == Empty ==> r == 0
    ensures t != Empty && t !in frame.collectedTimes ==> r == h
    ensures t != Empty && t in frame.collectedTimes ==>
      var d := Truncate(frame.collectedTimes[t] * Scale);
      h - r == if d < 0 then h else Min(d, h)
  {
    var d := DrawHeight(Some(frame), t, h);
    if d.None? then h else AreaTop(d.value, h)
  }

  /**
   * The height reached once the first `k` kinds of `AllTypes` have painted
   * their bands of `frame`, starting from the bottom at `Height`; it ends
   * at 0, since `Empty` comes last.
   */
  function Top(frame: FrameStatistics, k: nat): (r: int)
    requires k <= |AllTypes|
    ensures 0 <= r <= Height
    ensures k == |AllTypes| ==> r == 0
  {
    if k == 0 then Height else NextTop(frame, AllTypes[k - 1], Top(frame, k - 1))
  }

  /**
   * The bands `heights` describe tile the column: from `Height` down to 0,
   * never going up, so every row lies in exactly one band.
   */
  predicate Tiles(heights: seq<int>) {
    |heights| >= 1 && heights[0] == Height && heights[|heights| - 1] == 0 &&
    forall k :: 0 <= k < |heights| - 1 ==> heights[k + 1] <= heights[k]
  }

  /** Some band of a tiling holds any given row. */
  lemma {:induction false} TilesCover(heights: seq<int>, row: int)
    requires Tiles(heights)
    requires 0 <= row < Height
    ensures exists k :: 0 <= k < |heights| - 1 && heights[k + 1] <= row < heights[k]
  {
    var k := 0;
    while heights[k + 1] > row
      invariant 0 <= k < |heights| - 1
      invariant heights[k] > row
      decreases |heights| - k
    {
      k := k + 1;
    }
  }

  /**
   * Rows `lo` up to `hi` of a column hold the pixel of kind `t`.
   */
  predicate Band(data: seq<bv8>, pixel: (FrameTimeType, int) -> Rgba, t: FrameTimeType, lo: int, hi: int) {
    |data| == Height * 4 &&
    forall row :: 0 <= row && lo <= row < hi && row < Height ==> PixelAt(data, row) == pixel(t, row)
  }

  /** A band survives any change confined to the rows below `c`. */
  lemma BandKept(before: seq<bv8>, after: seq<bv8>, pixel: (FrameTimeType, int) -> Rgba, t: FrameTimeType, lo: int, hi: int, c: int)
    requires Band(before, pixel, t, lo, hi)
    requires |after| == |before| && c <= lo
    requires forall j :: 0 <= j < |before| && 4 * c <= j ==> after[j] == before[j]
    ensures Band(after, pixel, t, lo, hi)
  {
    forall row | 0 <= row && lo <= row < hi && row < Height
      ensures PixelAt(after, row) == pixel(t, row)
    {
      assert PixelAt(after, row) == PixelAt(before, row);
    }
  }

  /** Row `row` of a column holds the pixel of some kind. */
  predicate PaintedRow(data: seq<bv8>, pixel: (FrameTimeType, int) -> Rgba, row: int) {
    |data| == Height * 4 && 0 <= row < Height &&
    exists k :: 0 <= k < |AllTypes| && PixelAt(data, row) == pixel(AllTypes[k], row)
  }

  /** Every row of a column holds the pixel of some kind. */
  predicate FullyPainted(data: seq<bv8>, pixel: (FrameTimeType, int) -> Rgba) {
    forall row :: 0 <= row < Height ==> PaintedRow(data, pixel, row)
  }

  /** Bands over a tiling leave no row unpainted: each row holds the pixel of some kind. */
  lemma BandsCover(data: seq<bv8>, pixel: (FrameTimeType, int) -> Rgba, heights: seq<int>)
    requires |data| == Height * 4 && |heights| == |AllTypes| + 1 && Tiles(heights)
    requires forall k :: 0 <= k < |AllTypes| ==> Band(data, pixel, AllTypes[k], heights[k + 1], heights[k])
    ensures FullyPainted(data, pixel)
  {
    forall row | 0 <= row < Height
      ensures PaintedRow(data, pixel, row)
    {
      TilesCover(heights, row);
      var k :| 0 <= k < |heights| - 1 && heights[k + 1] <= row < heights[k];
      assert Band(data, pixel, AllTypes[k], heights[k + 1], heights[k]);
      assert PixelAt(data, row) == pixel(AllTypes[k], row);
    }
  }

  /**
   * The column `data` shows `frame`: the band of each kind lies between
   * the heights `Top` gives before and after it.
   */
  predicate ShowsFrame(data: seq<bv8>, pixel: (FrameTimeType, int) -> Rgba, frame: FrameStatistics) {
    forall k :: 0 <= k < |AllTypes| ==> Band(data, pixel, AllTypes[k], Top(frame, k + 1), Top(frame, k))
  }

  /** The heights `Top` gives for `frame`, one per boundary between bands. */
  function Tops(frame: FrameStatistics): (r: seq<int>)
    ensures |r| == |AllTypes| + 1
  {
    seq(|AllTypes| + 1, k requires 0 <= k <= |AllTypes| => Top(frame, k))
  }

  /** Later kinds paint above earlier ones: `Top` never goes up. */
  lemma {:induction false} TopFalls(frame: FrameStatistics, m: nat, k: nat)
    requires m <= k <= |AllTypes|
    ensures Top(frame, k) <= Top(frame, m)
    decreases k - m
  {
    if m < k {
      TopFalls(frame, m, k - 1);
    }
  }

  /** The heights `Top` gives for a frame tile the column. */
  lemma TopsTile(frame: FrameStatistics)
    ensures Tiles(Tops(frame))
  {
    var heights := Tops(frame);
    forall k | 0 <= k < |heights| - 1
      ensures heights[k + 1] <= heights[k]
    {
      TopFalls(frame, k, k + 1);
    }
  }

  /** A column that shows a frame leaves no row unpainted, since the bands tile it. */
  lemma ShownFrameFullyPainted(data: seq<bv8>, pixel: (FrameTimeType, int) -> Rgba, frame: FrameStatistics)
    requires |data| == Height * 4 && ShowsFrame(data, pixel, frame)
    ensures FullyPainted(data, pixel)
  {
    var heights := Tops(frame);
    TopsTile(frame);
    forall k | 0 <= k < |AllTypes|
      ensures Band(data, pixel, AllTypes[k], heights[k + 1], heights[k])
    {
      assert Band(data, pixel, AllTypes[k], Top(frame, k + 1), Top(frame, k));
    }
    BandsCover(data, pixel, heights);
  }

  /** Where the cursor is after `n` frames from `x`: it moves one column per frame round the ring. */
  function Cursor(x: int, n: int): int {
    (x + n) % (TimeBarCount * Width)
  }

  /** One more frame moves the cursor one more column. */
  lemma CursorStep(x: int, n: int)
    ensures Cursor(x, n + 1) == (Cursor(x, n) + 1) % (TimeBarCount * Width)
  {
  }

  class FrameTimeDisplay {
    /** The bytes of one column, `Height` pixels of 4 bytes. */
    const textureData: array<bv8>
    /** The bytes a pixel of a given kind gets in a given row. */
    const pixel: (FrameTimeType, int) -> Rgba
    var currentX: int
    var processFrames: bool
    /** The frames the monitor has queued and not yet handed over. */
    var pendingFrames: seq<FrameStatistics>
    /** Every column uploaded so far, oldest first. */
    var uploads: seq<Upload>
    /** The x positions of the two time bars. */
    var barPositions: seq<int>

    predicate Valid()
      reads this
    {
      textureData.Length == Height * 4 && 0 <= currentX < TimeBarCount * Width && |barPositions| == TimeBarCount
    }

    constructor (pixel: (FrameTimeType, int) -> Rgba, pendingFrames: seq<FrameStatistics>)
      ensures Valid() && fresh(textureData)
      ensures this.pixel == pixel && this.pendingFrames == pendingFrames
      ensures currentX == 0 && processFrames && uploads == [] && barPositions == [0, 0]
      ensures forall j :: 0 <= j < textureData.Length ==> textureData[j] == 0
    {
      textureData := new bv8[Height * 4](_ => 0);
      this.pixel := pixel;
      currentX := 0;
      processFrames := true;
      this.pendingFrames := pendingFrames;
      uploads := [];
      barPositions := [0, 0];
    }

    /** `TimeBarIndex`: the bar the cursor is in, 0 or 1. */
    function TimeBarIndex(): (r: int)
      requires Valid()
      reads this
      ensures 0 <= r < TimeBarCount
    {
      currentX / Width
    }

    /** `TimeBarX`: the column within that bar. */
    function TimeBarX(): (r: int)
      requires Valid()
      reads this
      ensures 0 <= r < Width
    {
      currentX % Width
    }

    /** Bar and column together give back the cursor. */
    lemma CursorSplits()
      requires Valid()
      ensures TimeBarIndex() * Width + TimeBarX() == currentX
    {
    }

    /** Stores the four bytes of `p` as the pixel of row `row`. */
    method WritePixel(row: int, p: Rgba)
      requires Valid() && 0 <= row < Height
      modifies textureData
      ensures PixelAt(textureData[..], row) == p
      ensures forall j :: 0 <= j < textureData.Length && !(4 * row <= j < 4 * row + 4) ==> textureData[j] == old(textureData[j])
    {
      var index := row * 4;
      textureData[index] := p.r;
      textureData[index + 1] := p.g;
      textureData[index + 2] := p.b;
      textureData[index + 3] := p.a;
    }

    /**
     * `addArea`: paints the band of kind `t` from row `currentHeight - 1`
     * downwards and returns the new height.  Without a time for `t` it
     * returns `currentHeight` and writes nothing; otherwise the rows from
     * the result up to `currentHeight` get `t`'s pixel and every other
     * byte stays.
     */
    method AddArea(frame: Option<FrameStatistics>, t: FrameTimeType, currentHeight: int) returns (r: int)
      requires Valid()
      requires currentHeight <= Height
      requires t == Empty || frame.Some?
      modifies textureData
      ensures DrawHeight(frame, t, currentHeight).None? ==> r == currentHeight
      ensures DrawHeight(frame, t, currentHeight).Some? ==> r == AreaTop(DrawHeight(frame, t, currentHeight).value, currentHeight)
      ensures Band(textureData[..], pixel, t, r, currentHeight)
      ensures forall j :: 0 <= j < textureData.Length && !(4 * r <= j < 4 * currentHeight) ==> textureData[j] == old(textureData[j])
    {
      var drawHeight := DrawHeight(frame, t, currentHeight);
      if drawHeight.None? {
        return currentHeight;
      }
      var d := drawHeight.value;
      var h := currentHeight;
      var i := currentHeight - 1;
      while i >= 0
        invariant i == h - 1 && h <= currentHeight
        invariant currentHeight > 0 ==> 0 <= h
        invariant currentHeight <= 0 ==> h == currentHeight
        invariant d == drawHeight.value - (currentHeight - h)
        invariant 0 <= drawHeight.value ==> 0 <= d
        invariant Band(textureData[..], pixel, t, h, currentHeight)
        invariant forall j :: 0 <= j < textureData.Length && !(4 * h <= j < 4 * currentHeight) ==> textureData[j] == old(textureData[j])
      {
        if d == 0 {
          break;
        }
        d := d - 1;
        ghost var before := textureData[..];
        WritePixel(i, pixel(t, i));
        BandKept(before, textureData[..], pixel, t, h, currentHeight, h);
        h := h - 1;
        i := i - 1;
      }
      if currentHeight > 0 && h > 0 {
        assert d == 0 && 0 <= drawHeight.value < currentHeight;
      }
      r := h;
    }

    /**
     * One step of the column: kind `k` paints its band of `frame` on top of
     * the bands of the kinds before it, which stay as they are, and the
     * height reached is the next one `Top` gives.
     */
    method PaintBand(frame: FrameStatistics, k: nat, currentHeight: int) returns (next: int)
      requires Valid()
      requires k < |AllTypes| && currentHeight == Top(frame, k)
      requires forall m :: 0 <= m < k ==> Band(textureData[..], pixel, AllTypes[m], Top(frame, m + 1), Top(frame, m))
      modifies textureData
      ensures next == Top(frame, k + 1)
      ensures forall m :: 0 <= m <= k ==> Band(textureData[..], pixel, AllTypes[m], Top(frame, m + 1), Top(frame, m))
    {
      ghost var before := textureData[..];
      next := AddArea(Some(frame), AllTypes[k], currentHeight);
      forall m | 0 <= m < k
        ensures Band(textureData[..], pixel, AllTypes[m], Top(frame, m + 1), Top(frame, m))
      {
        TopFalls(frame, m + 1, k);
        BandKept(before, textureData[..], pixel, AllTypes[m], Top(frame, m + 1), Top(frame, m), currentHeight);
      }
    }

    /**
     * The column of one frame: every kind in turn paints its band on top
     * of the previous one, starting from the bottom at `Height`, so the
     * column shows the frame.  The bands tile the whole column, since
     * `Empty` comes last and fills what is left, so every row holds the
     * pixel of some kind.
     */
    method PaintColumn(frame: FrameStatistics)
      requires Valid()
      modifies textureData
      ensures ShowsFrame(textureData[..], pixel, frame)
      ensures FullyPainted(textureData[..], pixel)
    {
      var currentHeight := Height;
      for k := 0 to |AllTypes|
        invariant currentHeight == Top(frame, k)
        invariant forall m :: 0 <= m < k ==> Band(textureData[..], pixel, AllTypes[m], Top(frame, m + 1), Top(frame, m))
      {
        currentHeight := PaintBand(frame, k, currentHeight);
      }
      ShownFrameFullyPainted(textureData[..], pixel, frame);
    }

    /**
     * One pass of `Update`'s loop: the column is painted and uploaded into
     * the current bar at the current column; while frames are processed
     * the bars are moved so that the column just drawn sits at the right
     * edge; and the cursor advances by one round the ring.
     */
    method ProcessFrame(frame: FrameStatistics)
      requires Valid()
      modifies textureData, this`uploads, this`barPositions, this`currentX
      ensures Valid()
      ensures uploads == old(uploads) + [Upload(old(currentX) / Width, old(currentX) % Width, textureData[..])]
      ensures ShowsFrame(textureData[..], pixel, frame)
      ensures FullyPainted(textureData[..], pixel)
      ensures !processFrames ==> barPositions == old(barPositions)
      ensures processFrames ==> barPositions[old(currentX) / Width] == Width - old(currentX) % Width
      ensures processFrames ==> barPositions[(old(currentX) / Width + 1) % TimeBarCount] == -(old(currentX) % Width)
      ensures currentX == (old(currentX) + 1) % (TimeBarCount * Width)
    {
      var bar := TimeBarIndex();
      PaintColumn(frame);
      uploads := uploads + [Upload(bar, TimeBarX(), textureData[..])];
      if processFrames {
        var x := TimeBarX();
        barPositions := barPositions[bar := Width - x];
        barPositions := barPositions[(bar + 1) % TimeBarCount := -x];
      }
      currentX := (currentX + 1) % (TimeBarCount * Width);
    }

    /**
     * `Update`: while frames are processed, takes the pending frames one
     * by one and processes each.  With processing switched off, or nothing
     * queued, nothing changes; otherwise the queue is drained, one fully
     * painted column showing each frame is uploaded in queue order, the
     * cursor has moved on by the number of frames, the bars are placed for
     * the last column drawn and the buffer still holds that column.
     */
    method Update()
      requires Valid()
      modifies textureData, this`uploads, this`barPositions, this`currentX, this`pendingFrames
      ensures Valid()
      ensures !processFrames ==> pendingFrames == old(pendingFrames) && uploads == old(uploads) && currentX == old(currentX)
      ensures processFrames ==> pendingFrames == []
      ensures processFrames ==> |uploads| == |old(uploads)| + |old(pendingFrames)|
      ensures processFrames ==> currentX == (old(currentX) + |old(pendingFrames)|) % (TimeBarCount * Width)
      ensures forall k :: |old(uploads)| <= k < |uploads| ==>
        uploads[k].bar == Cursor(old(currentX), k - |old(uploads)|) / Width &&
        uploads[k].column == Cursor(old(currentX), k - |old(uploads)|) % Width
      ensures forall k :: |old(uploads)| <= k < |uploads| ==> FullyPainted(uploads[k].data, pixel)
      ensures forall k :: |old(uploads)| <= k < |uploads| ==> ShowsFrame(uploads[k].data, pixel, old(pendingFrames)[k - |old(uploads)|])
      ensures !processFrames || old(pendingFrames) == [] ==> barPositions == old(barPositions) && textureData[..] == old(textureData[..])
      ensures processFrames && old(pendingFrames) != [] ==>
        var c := Cursor(old(currentX), |old(pendingFrames)| - 1);
        barPositions[c / Width] == Width - c % Width &&
        barPositions[(c / Width + 1) % TimeBarCount] == -(c % Width) &&
        textureData[..] == uploads[|uploads| - 1].data
    {
      ghost var n := 0;
      while processFrames && pendingFrames != []
        invariant Valid()
        invariant 0 <= n <= |old(pendingFrames)| && pendingFrames == old(pendingFrames)[n..]
        invariant !processFrames ==> n == 0 && uploads == old(uploads)
        invariant |uploads| == |old(uploads)| + n
        invariant currentX == Cursor(old(currentX), n)
        invariant forall k :: |old(uploads)| <= k < |uploads| ==>
          uploads[k].bar == Cursor(old(currentX), k - |old(uploads)|) / Width &&
          uploads[k].column == Cursor(old(currentX), k - |old(uploads)|) % Width
        invariant forall k :: |old(uploads)| <= k < |uploads| ==> FullyPainted(uploads[k].data, pixel)
        invariant forall k :: |old(uploads)| <= k < |uploads| ==> ShowsFrame(uploads[k].data, pixel, old(pendingFrames)[k - |old(uploads)|])
        invariant n == 0 ==> barPositions == old(barPositions) && textureData[..] == old(textureData[..])
        invariant n > 0 ==>
          var c := Cursor(old(currentX), n - 1);
          barPositions[c / Width] == Width - c % Width &&
          barPositions[(c / Width + 1) % TimeBarCount] == -(c % Width) &&
          textureData[..] == uploads[|uploads| - 1].data
        decreases |pendingFrames|
      {
        var frame := pendingFrames[0];
        pendingFrames := pendingFrames[1..];
        CursorStep(old(currentX), n);
        ProcessFrame(frame);
        n := n + 1;
      }
      assert old(pendingFrames)[0..] == old(pendingFrames);
    }

    /** Left-Ctrl down stops the processing of frames; other keys change nothing here. */
    method OnKeyDown(key: Key)
      modifies this`processFrames
      ensures processFrames == if key == ControlLeft then false else old(processFrames)
    {
      if key == ControlLeft {
        processFrames := false;
      }
    }

    /** Left-Ctrl up resumes the processing of frames. */
    method OnKeyUp(key: Key)
      modifies this`processFrames
      ensures processFrames == if key == ControlLeft then true else old(processFrames)
    {
      if key == ControlLeft {
        processFrames := true;
      }
    }

    /**
     * The background painted by `Load`: every column of both bars is
     * filled with the `Empty` pixel and uploaded in turn, leaving the
     * cursor on the last column.
     */
    method InitialiseBackground()
      requires Valid()
      modifies textureData, this`uploads, this`currentX
      ensures Valid()
      ensures currentX == TimeBarCount * Width - 1
      ensures |uploads| == |old(uploads)| + TimeBarCount * Width
      ensures forall m :: |old(uploads)| <= m < |uploads| ==>
        uploads[m].bar == (m - |old(uploads)|) / Width && uploads[m].column == (m - |old(uploads)|) % Width &&
        Band(uploads[m].data, pixel, Empty, 0, Height)
    {
      for i := 0 to TimeBarCount * Width
        invariant Valid()
        invariant i > 0 ==> currentX == i - 1
        invariant |uploads| == |old(uploads)| + i
        invariant forall m :: |old(uploads)| <= m < |uploads| ==>
          uploads[m].bar == (m - |old(uploads)|) / Width && uploads[m].column == (m - |old(uploads)|) % Width &&
          Band(uploads[m].data, pixel, Empty, 0, Height)
      {
        currentX := i;
        var bar := TimeBarIndex();
        var top := AddArea(None, Empty, Height);
        uploads := uploads + [Upload(bar, TimeBarX(), textureData[..])];
      }
    }
  }
}
