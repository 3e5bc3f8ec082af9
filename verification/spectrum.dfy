/** The frequency-analysis canvas: 32 bars and an abstract overlay (a circle
    and 8 rays), each element sampling one bin of the snapshot. Drawing calls
    become values: rectangles, colours, radii, lengths and opacities. */
module Spectrum {
  import opened Bins

  /** Number of bars drawn across the canvas. */
  const BarCount: nat := 32

  /** Number of rays around the circle. */
  const RayCount: nat := 8

  /** The bin that element `i` of `n` evenly spaced elements samples from a
      snapshot of `len` bins: `Math.floor(i * len / n)`, always a valid bin. */
  function SampleIndex(i: nat, len: nat, n: nat): (k: nat)
    requires i < n && len > 0
    ensures k < len
  {
    FloorOfScaled(i, len, n);
    i * len / n
  }

  /** The floor of `i * len / n` brackets `i * len` and, for `i < n`, stays
      below `len`: element `i` samples the bin whose share `[k * n, (k + 1) * n)`
      of the scaled range holds `i * len`. */
  lemma FloorOfScaled(i: nat, len: nat, n: nat)
    requires i < n && len > 0
    ensures 0 <= i * len / n < len
    ensures (i * len / n) * n <= i * len < (i * len / n + 1) * n
  {
    var k := i * len / n;
    assert i * len >= 0;
    assert k * n <= i * len < (k + 1) * n;
    MulLessOfLess(i, n, len);
    LessOfMulLess(k, len, n);
  }

  /** Multiplying by a positive factor keeps a strict order. */
  lemma MulLessOfLess(a: int, b: int, n: int)
    requires n > 0 && a < b
    ensures a * n < b * n
  {
    assert (b - a) * n == b * n - a * n;
  }

  /** Multiplying by a non-negative factor keeps a weak order. */
  lemma MulLeOfLe(a: int, b: int, n: int)
    requires n >= 0 && a <= b
    ensures a * n <= b * n
  {
    assert (b - a) * n == b * n - a * n;
  }

  /** A strict order between multiples of a positive factor is one between
      the multiplicands. */
  lemma LessOfMulLess(a: int, b: int, n: int)
    requires n > 0 && a * n < b * n
    ensures a < b
  {
    assert (b - a) * n == b * n - a * n;
  }

  /** A floor quotient never decreases as the dividend grows. */
  lemma DivMonotone(a: nat, b: nat, n: nat)
    requires n > 0 && a <= b
    ensures a / n <= b / n
  {
    var qa, qb := a / n, b / n;
    assert qa * n <= a && b < (qb + 1) * n;
    LessOfMulLess(qa, qb + 1, n);
  }

  /** Later elements sample the same or a later bin. */
  lemma SampleIndexMonotone(i: nat, j: nat, len: nat, n: nat)
    requires i <= j < n && len > 0
    ensures SampleIndex(i, len, n) <= SampleIndex(j, len, n)
  {
    MulLeOfLe(i, j, len);
    DivMonotone(i * len, j * len, n);
  }

  /** With no more elements than bins, distinct elements sample distinct bins:
      the 32 bars and the 8 rays never repeat a bin of a 256-bin snapshot. */
  lemma SampleIndexStrict(i: nat, j: nat, len: nat, n: nat)
    requires i < j < n && 0 < n <= len
    ensures SampleIndex(i, len, n) < SampleIndex(j, len, n)
  {
    var ki, kj := SampleIndex(i, len, n), SampleIndex(j, len, n);
    FloorOfScaled(i, len, n);
    FloorOfScaled(j, len, n);
    MulLeOfLe(i + 1, j, len);
    assert (i + 1) * len == i * len + len;
    assert (ki + 1) * n == ki * n + n;
    LessOfMulLess(ki + 1, kj + 1, n);
  }

  /** Sampling as many elements as there are bins picks every bin in order. */
  lemma SampleIndexIdentity(i: nat, len: nat)
    requires i < len
    ensures SampleIndex(i, len, len) == i
  {
    var k := SampleIndex(i, len, len);
    FloorOfScaled(i, len, len);
    assert (k + 1) * len == k * len + len;
    assert (i + 1) * len == i * len + len;
    LessOfMulLess(k, i + 1, len);
    LessOfMulLess(i, k + 1, len);
  }

  /** With at least as many elements as bins, every bin is sampled by some
      element: a spectrogram column at least as tall as the snapshot shows
      every bin. */
  lemma SampleIndexCovers(k: nat, len: nat, n: nat)
    requires k < len <= n
    ensures exists i :: 0 <= i < n && SampleIndex(i, len, n) == k
  {
    var i := CeilingQuotient(k, len, n);
    var s := SampleIndex(i, len, n);
    FloorOfScaled(i, len, n);
    assert (s + 1) * n == s * n + n;
    assert (k + 1) * n == k * n + n;
    LessOfMulLess(k, s + 1, n);
    LessOfMulLess(s, k + 1, n);
  }

  /** The ceiling of `k * n / len`: the first element whose scaled position
      reaches bin `k`. */
  lemma CeilingQuotient(k: nat, len: nat, n: nat) returns (i: nat)
    requires k < len <= n
    ensures i < n
    ensures k * n <= i * len < k * n + len
  {
    var m := k * n;
    i := (m + len - 1) / len;
    DivBracket(m + len - 1, len);
    LastBinFits(k, len, n);
    LessOfMulLess(i, n, len);
  }

  /** A floor quotient brackets its dividend. */
  lemma DivBracket(a: nat, d: nat)
    requires d > 0
    ensures (a / d) * d <= a < (a / d) * d + d
  {
  }

  /** Scaling any bin below `len` by `n >= len` leaves room for one more
      `len` below `n * len`. */
  lemma LastBinFits(k: nat, len: nat, n: nat)
    requires k < len <= n
    ensures k * n + len <= n * len
  {
    MulLeOfLe(k + 1, len, n);
    assert (k + 1) * n == k * n + n;
  }

  /** A colour as `hsl(hue, saturation%, lightness%)`. */
  datatype Hsl = Hsl(hue: real, saturation: real, lightness: real)

  /** An axis-aligned rectangle `fillRect(x, y, w, h)`; `y` grows downwards. */
  datatype Rect = Rect(x: real, y: real, w: real, h: real)

  /** One bar of the bar layer. */
  datatype Bar = Bar(rect: Rect, color: Hsl)

  /** Fraction of full scale an amplitude reaches. */
  function Level(a: byte): (r: real)
    ensures 0.0 <= r <= 1.0
    ensures r * 255.0 == a as real
  {
    a as real / 255.0
  }

  /** Bar height: the amplitude's share of full scale times 80% of the canvas
      height, so a bar never rises above 80% of the canvas. */
  function BarHeight(a: byte, height: nat): (h: real)
    ensures 0.0 <= h <= 0.8 * height as real
    ensures h == 0.0 <==> a == 0 || height == 0
    ensures h * 255.0 == 0.8 * a as real * height as real
  {
    var l := Level(a);
    assert l * height as real <= height as real;
    l * height as real * 0.8
  }

  /** A louder bin never draws a shorter bar, and a full-scale bin reaches
      80% of the canvas height. */
  lemma BarHeightMonotone(a: byte, b: byte, height: nat)
    requires a <= b
    ensures BarHeight(a, height) <= BarHeight(b, height)
    ensures BarHeight(MaxAmplitude, height) == 0.8 * height as real
  {
    ScaledLe(BarHeight(a, height), BarHeight(b, height), a as real, b as real, height as real);
  }

  /** Two heights drawn from ordered amplitudes on the same canvas are ordered. */
  lemma ScaledLe(ha: real, hb: real, x: real, y: real, hr: real)
    requires ha * 255.0 == 0.8 * x * hr && hb * 255.0 == 0.8 * y * hr
    requires x <= y && hr >= 0.0
    ensures ha <= hb
  {
    MulLeReal(0.8 * x, 0.8 * y, hr);
  }

  /** Multiplying by a non-negative real keeps a weak order. */
  lemma MulLeReal(x: real, y: real, c: real)
    requires x <= y && c >= 0.0
    ensures x * c <= y * c
  {
    assert (y - x) * c >= 0.0;
  }

  /** Bar hue: 200 for the first bar, rising by 60/32 per bar, below 260. */
  function BarHue(i: nat): (hue: real)
    requires i < BarCount
    ensures 200.0 <= hue < 260.0
    ensures (hue - 200.0) * BarCount as real == 60.0 * i as real
  {
    i as real / BarCount as real * 60.0 + 200.0
  }

  /** The first bar has hue 200 and each later bar a strictly higher hue. */
  lemma BarHueIncreasing(i: nat, j: nat)
    requires i < j < BarCount
    ensures BarHue(0) == 200.0 && BarHue(i) < BarHue(j)
  {
  }

  /** Bar saturation: half the amplitude, capped at 100; the cap is reached
      exactly from amplitude 200 up. */
  function BarSaturation(a: byte): (s: real)
    ensures 0.0 <= s <= 100.0
    ensures s == 100.0 <==> a >= 200
    ensures s < 100.0 ==> s * 2.0 == a as real
  {
    var half := a as real / 2.0;
    if 100.0 < half then 100.0 else half
  }

  /** Bar lightness: 50 plus 30 times the amplitude's share of full scale. */
  function BarLightness(a: byte): (l: real)
    ensures 50.0 <= l <= 80.0
  {
    50.0 + Level(a) * 30.0
  }

  /** Recovers the amplitude a bar lightness was drawn from. */
  function AmplitudeOfBarLightness(l: real): real
  {
    (l - 50.0) * 255.0 / 30.0
  }

  /** Bar lightness loses nothing: the amplitude can be read back from it, so
      different amplitudes never share a lightness. */
  lemma BarLightnessRoundTrip(a: byte)
    ensures AmplitudeOfBarLightness(BarLightness(a)) == a as real
  {
  }

  /** The bars for a snapshot on a `width` by `height` canvas. Bar `i` samples
      bin `SampleIndex(i, |bins|, 32)`, stands on the bottom edge, occupies
      its 1/32 slot of the width minus a one-pixel gap, and is coloured from
      its bin's amplitude. */
  function Bars(bins: seq<byte>, width: nat, height: nat): (bars: seq<Bar>)
    requires |bins| > 0
    ensures |bars| == BarCount
    ensures forall i :: 0 <= i < BarCount ==>
      var a := bins[SampleIndex(i, |bins|, BarCount)];
      && bars[i].rect.y + bars[i].rect.h == height as real
      && bars[i].rect.h == BarHeight(a, height)
      && bars[i].rect.x == i as real * (width as real / BarCount as real)
      && bars[i].rect.w + 1.0 == width as real / BarCount as real
      && bars[i].color == Hsl(BarHue(i), BarSaturation(a), BarLightness(a))
  {
    var barWidth := width as real / BarCount as real;
    seq(BarCount, i requires 0 <= i < BarCount =>
      var a := bins[SampleIndex(i, |bins|, BarCount)];
      var h := BarHeight(a, height);
      Bar(Rect(i as real * barWidth, height as real - h, barWidth - 1.0, h),
          Hsl(BarHue(i), BarSaturation(a), BarLightness(a))))
  }

  /** The central circle: its radius and stroke opacity. */
  datatype Circle = Circle(radius: real, alpha: real)

  /** The circle for a snapshot: opacity is the mean amplitude's share of full
      scale and the radius grows from 20 by 60 times that share, so it stays
      in `[20, 80]` and is 20 exactly for a silent snapshot. */
  function CircleOf(bins: seq<byte>): (c: Circle)
    requires |bins| > 0
    ensures 0.0 <= c.alpha <= 1.0
    ensures c.radius == 20.0 + 60.0 * c.alpha
    ensures 20.0 <= c.radius <= 80.0
    ensures c.alpha * 255.0 == Mean(bins)
  {
    var avg := Mean(bins);
    Circle(avg / 255.0 * 60.0 + 20.0, avg / 255.0)
  }

  /** The circle is at its smallest exactly when the snapshot is silent. */
  lemma CircleSmallestIffSilent(bins: seq<byte>)
    requires |bins| > 0
    ensures CircleOf(bins).radius == 20.0 <==> forall i :: 0 <= i < |bins| ==> bins[i] == 0
  {
    MeanZeroIff(bins);
  }

  /** One ray: its angle as a fraction of a full turn, the radius it starts
      from, its length and its opacity. */
  datatype Ray = Ray(turn: real, start: real, length: real, alpha: real)

  /** The rays for a snapshot around a circle of radius `radius`. Ray `i`
      points at `i/8` of a turn, starts on the circle, and its length is 80
      times its bin's share of full scale, the same share as its opacity. */
  function Rays(bins: seq<byte>, radius: real): (rays: seq<Ray>)
    requires |bins| > 0
    ensures |rays| == RayCount
    ensures forall i :: 0 <= i < RayCount ==>
      && rays[i].turn * RayCount as real == i as real
      && rays[i].start == radius
      && rays[i].alpha == Level(bins[SampleIndex(i, |bins|, RayCount)])
      && rays[i].length == 80.0 * rays[i].alpha
      && 0.0 <= rays[i].length <= 80.0
  {
    seq(RayCount, i requires 0 <= i < RayCount =>
      var level := Level(bins[SampleIndex(i, |bins|, RayCount)]);
      Ray(i as real / RayCount as real, radius, level * 80.0, level))
  }

  /** Everything `drawVisualization` puts on the canvas for one snapshot. */
  datatype Scene = Scene(bars: seq<Bar>, circle: Circle, rays: seq<Ray>)

  /** The scene for a snapshot: bars, then the circle, then rays starting on
      the circle's edge. Every ray ends within 160 of the centre. */
  function DrawVisualization(bins: seq<byte>, width: nat, height: nat): (s: Scene)
    requires |bins| > 0
    ensures |s.bars| == BarCount && |s.rays| == RayCount
    ensures forall i :: 0 <= i < RayCount ==>
      s.rays[i].start == s.circle.radius && s.rays[i].start + s.rays[i].length <= 160.0
  {
    var c := CircleOf(bins);
    Scene(Bars(bins, width, height), c, Rays(bins, c.radius))
  }
}
