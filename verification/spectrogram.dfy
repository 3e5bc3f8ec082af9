/** The scrolling spectrogram: a raster of columns that moves one pixel to the
    left on every frame, with the newest snapshot painted into the rightmost
    column, low frequencies at the bottom. */
module Spectrogram {
  import opened Bins
  import opened Spectrum

  /** One canvas pixel: untouched, or filled with a colour. */
  datatype Pixel = Transparent | Painted(color: Hsl)

  /** The spectrogram canvas as `width` columns of `height` pixels. Column 0 is
      the left (oldest) edge; within a column, row 0 is the top edge. */
  datatype Raster = Raster(width: nat, height: nat, columns: seq<seq<Pixel>>)

  /** The columns match the canvas dimensions. */
  predicate Valid(r: Raster)
  {
    && |r.columns| == r.width
    && forall c :: 0 <= c < r.width ==> |r.columns[c]| == r.height
  }

  /** A freshly sized canvas: every pixel transparent. */
  function Blank(width: nat, height: nat): (r: Raster)
    ensures Valid(r) && r.width == width && r.height == height
    ensures forall c, row :: 0 <= c < width && 0 <= row < height ==> r.columns[c][row] == Transparent
  {
    Raster(width, height, seq(width, _ => seq(height, _ => Transparent)))
  }

  /** The colour for one amplitude: hue falls from 240 to 180 and lightness
      rises from 10 to 70 as the amplitude grows, at fixed saturation 80, so
      hue and lightness always add up to 250. */
  function IntensityColor(a: byte): (c: Hsl)
    ensures 180.0 <= c.hue <= 240.0
    ensures c.saturation == 80.0
    ensures 10.0 <= c.lightness <= 70.0
    ensures c.hue + c.lightness == 250.0
  {
    var level := Level(a);
    Hsl(240.0 - level * 60.0, 80.0, level * 60.0 + 10.0)
  }

  /** Recovers the amplitude a spectrogram colour was drawn from. */
  function IntensityOf(c: Hsl): real
  {
    (c.lightness - 10.0) * 255.0 / 60.0
  }

  /** The spectrogram colour loses nothing: the amplitude reads back from it. */
  lemma IntensityRoundTrip(a: byte)
    ensures IntensityOf(IntensityColor(a)) == a as real
  {
  }

  /** The new rightmost column for a snapshot: every row painted, each with
      a spectrogram colour. */
  function NewColumn(bins: seq<byte>, height: nat): (col: seq<Pixel>)
    requires |bins| > 0
    ensures |col| == height
    ensures forall row :: 0 <= row < height ==> col[row].Painted? && col[row].color.saturation == 80.0
  {
    seq(height, row requires 0 <= row < height => RowPixel(bins, height, row))
  }

  /** The pixel painted at `row` of the new column: the bin sampled for its
      position counted from the bottom. */
  function RowPixel(bins: seq<byte>, height: nat, row: nat): (p: Pixel)
    requires |bins| > 0 && row < height
    ensures p.Painted? && p.color.saturation == 80.0
  {
    Painted(IntensityColor(bins[SampleIndex(height - 1 - row, |bins|, height)]))
  }

  /** Rows are painted bottom-up: the `i`-th row from the bottom (row
      `height - 1 - i`) shows bin `SampleIndex(i, |bins|, height)`. */
  lemma NewColumnBottomUp(bins: seq<byte>, height: nat, i: nat)
    requires |bins| > 0 && i < height
    ensures NewColumn(bins, height)[height - 1 - i]
      == Painted(IntensityColor(bins[SampleIndex(i, |bins|, height)]))
  {
    var row := height - 1 - i;
    assert height - 1 - row == i;
  }

  /** Going up a column never goes down in frequency: the bottom row shows
      bin 0 and every row shows a bin at least as high as the rows below it. */
  lemma NewColumnFrequencyOrder(bins: seq<byte>, height: nat, above: nat, below: nat)
    requires |bins| > 0 && above <= below < height
    ensures NewColumn(bins, height)[height - 1] == Painted(IntensityColor(bins[0]))
    ensures SampleIndex(height - 1 - below, |bins|, height) <= SampleIndex(height - 1 - above, |bins|, height)
  {
    SampleIndexMonotone(height - 1 - below, height - 1 - above, |bins|, height);
    NewColumnBottomUp(bins, height, 0);
  }

  /** When the canvas is exactly as tall as the snapshot is long, the new
      column read from the bottom up gives back the snapshot itself. */
  lemma NewColumnReadsBack(bins: seq<byte>)
    requires |bins| > 0
    ensures var col := NewColumn(bins, |bins|);
      forall i :: 0 <= i < |bins| ==>
        col[|bins| - 1 - i].Painted? && IntensityOf(col[|bins| - 1 - i].color) == bins[i] as real
  {
    var col := NewColumn(bins, |bins|);
    forall i | 0 <= i < |bins|
      ensures col[|bins| - 1 - i].Painted? && IntensityOf(col[|bins| - 1 - i].color) == bins[i] as real
    {
      NewColumnBottomUp(bins, |bins|, i);
      SampleIndexIdentity(i, |bins|);
      IntensityRoundTrip(bins[i]);
    }
  }

  /** Why a canvas operation failed. */
  datatype CanvasError =
    /** `getImageData` was asked for a rectangle with a zero side. */
    IndexSizeError

  /** Outcome of a canvas update. */
  datatype Result<T> = Ok(value: T) | Err(error: CanvasError)

  /** One spectrogram frame: copy columns `1 .. width - 1` one place to the
      left, then repaint the rightmost column from the snapshot. The copy
      reads a `(width - 1) x height` rectangle, which fails for a one-column
      or zero-row canvas; a zero-column canvas has nothing to move or paint. */
  function Append(r: Raster, bins: seq<byte>): (res: Result<Raster>)
    requires Valid(r) && |bins| > 0
    ensures res.Err? <==> r.width == 1 || r.height == 0
    ensures res.Ok? ==> Valid(res.value) && res.value.width == r.width && res.value.height == r.height
    ensures res.Ok? ==> forall c :: 0 <= c < r.width - 1 ==> res.value.columns[c] == r.columns[c + 1]
    ensures res.Ok? && r.width > 0 ==> res.value.columns[r.width - 1] == NewColumn(bins, r.height)
  {
    if r.width == 1 || r.height == 0 then Err(IndexSizeError)
    else if r.width == 0 then Ok(r)
    else Ok(Raster(r.width, r.height, r.columns[1..] + [NewColumn(bins, r.height)]))
  }

  /** The canvas after a run of frames, oldest first, on a canvas at least two
      columns wide and one row tall, where every frame succeeds. */
  function AppendAll(r: Raster, frames: seq<seq<byte>>): (res: Raster)
    requires Valid(r) && r.width >= 2 && r.height >= 1
    requires forall j :: 0 <= j < |frames| ==> |frames[j]| > 0
    ensures Valid(res) && res.width == r.width && res.height == r.height
    decreases |frames|
  {
    if |frames| == 0 then r
    else Append(AppendAll(r, frames[..|frames| - 1]), frames[|frames| - 1]).value
  }

  /** After `n <= width` frames the canvas has scrolled by `n` columns: the
      left part is the old canvas moved `n` places left and the rightmost `n`
      columns are the frames' columns, oldest first. With `n == width`
      nothing of the old canvas is left. */
  lemma {:induction false} AppendHistory(r: Raster, frames: seq<seq<byte>>)
    requires Valid(r) && r.width >= 2 && r.height >= 1
    requires forall j :: 0 <= j < |frames| ==> |frames[j]| > 0
    requires |frames| <= r.width
    ensures forall c :: 0 <= c < r.width - |frames| ==>
      AppendAll(r, frames).columns[c] == r.columns[c + |frames|]
    ensures forall j :: 0 <= j < |frames| ==>
      AppendAll(r, frames).columns[r.width - |frames| + j] == NewColumn(frames[j], r.height)
    decreases |frames|
  {
    if |frames| > 0 {
      var n := |frames|;
      var p := frames[..n - 1];
      AppendHistory(r, p);
      var before := AppendAll(r, p);
      var after := AppendAll(r, frames);
      assert after == Append(before, frames[n - 1]).value;
      forall j | 0 <= j < n
        ensures after.columns[r.width - n + j] == NewColumn(frames[j], r.height)
      {
        if j < n - 1 {
          assert after.columns[r.width - n + j] == before.columns[r.width - (n - 1) + j];
          assert p[j] == frames[j];
        }
      }
    }
  }
}
