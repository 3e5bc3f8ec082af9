/** Scalar features of one frequency snapshot: the dominant bin found by a
    linear scan, the frequency reported for it, and the rounding applied to the
    values handed to the display. The volume is `Bins.Mean` of the snapshot. */
module Features {
  import opened Bins

  /** FFT size configured on the analyser node. */
  const FftSize: nat := 512

  /** Number of frequency bins the analyser reports: half the FFT size. */
  const BinCount: nat := FftSize / 2

  /** `k` is the first index holding the largest amplitude of `bins`. */
  ghost predicate IsFirstMax(bins: seq<byte>, k: int)
  {
    && 0 <= k < |bins|
    && (forall j :: 0 <= j < |bins| ==> bins[j] <= bins[k])
    && (forall j :: 0 <= j < k ==> bins[j] < bins[k])
  }

  /** At most one index is the first maximum of a snapshot. */
  lemma FirstMaxUnique(bins: seq<byte>, k1: int, k2: int)
    requires IsFirstMax(bins, k1) && IsFirstMax(bins, k2)
    ensures k1 == k2
  {
    assert bins[k1] <= bins[k2] && bins[k2] <= bins[k1];
    if k1 < k2 {
      assert false;
    } else if k2 < k1 {
      assert false;
    }
  }

  /** The dominant-bin scan: starting from a best value of 0 at index 0, a bin
      replaces the best only when it is strictly larger, so the first
      occurrence of the maximum wins and a silent snapshot yields index 0. */
  method FindDominantBin(bins: seq<byte>) returns (maxIndex: nat, maxValue: byte)
    ensures |bins| == 0 ==> maxIndex == 0 && maxValue == 0
    ensures |bins| > 0 ==> IsFirstMax(bins, maxIndex) && maxValue == bins[maxIndex]
    ensures (forall j :: 0 <= j < |bins| ==> bins[j] == 0) ==> maxIndex == 0
  {
    maxValue := 0;
    maxIndex := 0;
    var i := 0;
    while i < |bins|
      invariant 0 <= i <= |bins|
      invariant maxIndex == 0 || maxIndex < i
      invariant i > 0 ==> maxIndex < i && maxValue == bins[maxIndex]
      invariant i == 0 ==> maxValue == 0
      invariant forall j :: 0 <= j < i ==> bins[j] <= maxValue
      invariant forall j :: 0 <= j < maxIndex ==> bins[j] < maxValue
      invariant maxValue == 0 ==> maxIndex == 0
    {
      if bins[i] > maxValue {
        maxValue := bins[i];
        maxIndex := i;
      }
      i := i + 1;
    }
  }

  /** Centre frequency of bin `k` for an FFT of `fftSize` samples:
      `k * sampleRate / fftSize`. */
  function BinFrequency(k: nat, sampleRate: real, fftSize: nat): real
    requires fftSize > 0
  {
    k as real * sampleRate / fftSize as real
  }

  /** The frequency the analysis reports for bin `maxIndex`. The divisor is
      `fftSize * 2`, so the reported value is half the bin's centre frequency;
      it is zero exactly when the dominant bin is bin 0, and it never
      decreases as the bin index grows. */
  function DominantFreq(maxIndex: nat, sampleRate: real, fftSize: nat): (f: real)
    requires fftSize > 0
    ensures f * 2.0 == BinFrequency(maxIndex, sampleRate, fftSize)
    ensures sampleRate >= 0.0 ==> f >= 0.0
    ensures sampleRate > 0.0 ==> (f == 0.0 <==> maxIndex == 0)
  {
    maxIndex as real * sampleRate / (fftSize * 2) as real
  }

  /** A higher dominant bin never reports a lower frequency. */
  lemma DominantFreqMonotone(k1: nat, k2: nat, sampleRate: real, fftSize: nat)
    requires fftSize > 0 && sampleRate >= 0.0 && k1 <= k2
    ensures DominantFreq(k1, sampleRate, fftSize) <= DominantFreq(k2, sampleRate, fftSize)
  {
    var d := (fftSize * 2) as real;
    assert (k2 as real - k1 as real) * sampleRate >= 0.0;
    assert k2 as real * sampleRate / d - k1 as real * sampleRate / d
        == (k2 as real - k1 as real) * sampleRate / d;
  }

  /** `Math.round`: the nearest integer, with halves rounded up. */
  function Round(x: real): (r: int)
    ensures x - 0.5 < r as real <= x + 0.5
  {
    (x + 0.5).Floor
  }

  /** Rounding a value in `[lo, hi]` with integer ends stays in `[lo, hi]`. */
  lemma RoundWithin(x: real, lo: int, hi: int)
    requires lo as real <= x <= hi as real
    ensures lo <= Round(x) <= hi
  {
  }
}
