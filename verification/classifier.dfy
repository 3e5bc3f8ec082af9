/** The sound-type classifier: three band means over fixed bin ranges and an
    ordered rule table over them, the volume and the dominant frequency. */
module Classifier {
  import opened Bins
  import opened Features

  /** The six labels the classifier can produce. */
  datatype SoundType = Silence | Speech | Music | LowFreqNoise | HighFreqSound | AmbientNoise

  /** A value that may be absent. */
  datatype Option<T> = None | Some(value: T)

  /** The string the component publishes for each label; reading it back
      gives the label again. */
  function Label(t: SoundType): (s: string)
    ensures |s| > 0
    ensures ParseLabel(s) == Some(t)
  {
    match t
    case Silence => "тишина"
    case Speech => "речь"
    case Music => "музыка"
    case LowFreqNoise => "низкочастотный шум"
    case HighFreqSound => "высокочастотный звук"
    case AmbientNoise => "окружающий шум"
  }

  /** Reads a published string back as a label; `None` for any other string. */
  function ParseLabel(s: string): Option<SoundType>
  {
    if s == "тишина" then Some(Silence)
    else if s == "речь" then Some(Speech)
    else if s == "музыка" then Some(Music)
    else if s == "низкочастотный шум" then Some(LowFreqNoise)
    else if s == "высокочастотный звук" then Some(HighFreqSound)
    else if s == "окружающий шум" then Some(AmbientNoise)
    else None
  }

  /** A string that reads back as a label is that label's published string. */
  lemma ParseLabelSound(s: string)
    ensures ParseLabel(s).Some? ==> Label(ParseLabel(s).value) == s
  {
  }

  /** No two labels share a string. */
  lemma LabelInjective(t1: SoundType, t2: SoundType)
    ensures Label(t1) == Label(t2) ==> t1 == t2
  {
  }

  /** First bin past the low band. */
  const LowEnd: nat := 85

  /** First bin past the mid band; the high band runs from here to the end. */
  const MidEnd: nat := 170

  /** Mean amplitudes of the low `[0, 85)`, mid `[85, 170)` and high
      `[170, len)` bands. */
  datatype Bands = Bands(low: real, mid: real, high: real)

  /** The three band means of a snapshot. Each is a mean of the bins of its
      band, so each lies in `[0, 255]`; the low and mid means divide by 85 and
      the high mean by the number of bins past 170. */
  function BandsOf(bins: seq<byte>): (b: Bands)
    requires |bins| > MidEnd
    ensures 0.0 <= b.low <= 255.0 && 0.0 <= b.mid <= 255.0 && 0.0 <= b.high <= 255.0
    ensures b.low * LowEnd as real == Sum(bins[..LowEnd]) as real
    ensures b.mid * (MidEnd - LowEnd) as real == Sum(bins[LowEnd..MidEnd]) as real
    ensures b.high * (|bins| - MidEnd) as real == Sum(bins[MidEnd..]) as real
  {
    Bands(Mean(bins[..LowEnd]), Mean(bins[LowEnd..MidEnd]), Mean(bins[MidEnd..]))
  }

  /** The three bands cover every bin exactly once: their sums add up to the
      sum of the snapshot. */
  lemma BandsPartition(bins: seq<byte>)
    requires |bins| > MidEnd
    ensures Sum(bins[..LowEnd]) + Sum(bins[LowEnd..MidEnd]) + Sum(bins[MidEnd..]) == Sum(bins)
  {
    assert bins == bins[..LowEnd] + bins[LowEnd..MidEnd] + bins[MidEnd..];
    SumConcat(bins[..LowEnd], bins[LowEnd..MidEnd]);
    SumConcat(bins[..LowEnd] + bins[LowEnd..MidEnd], bins[MidEnd..]);
  }

  /** The volume is the bin-count-weighted average of the three band means. */
  lemma VolumeIsWeightedBands(bins: seq<byte>)
    requires |bins| > MidEnd
    ensures var b := BandsOf(bins);
      Mean(bins) * |bins| as real
      == 85.0 * b.low + 85.0 * b.mid + (|bins| - MidEnd) as real * b.high
  {
    BandsPartition(bins);
  }

  /** Rule 1: too quiet to classify. */
  predicate IsQuiet(volume: real) { volume < 10.0 }

  /** Rule 2: mid band strictly louder than both others, peak between 200 and 3000 Hz. */
  predicate SpeechRule(b: Bands, freq: real)
  {
    b.mid > b.low && b.mid > b.high && 200.0 < freq < 3000.0
  }

  /** Rule 3: a loud signal with a strong high band. */
  predicate MusicRule(b: Bands, volume: real)
  {
    b.high > 40.0 && volume > 30.0
  }

  /** Rule 4: low band strictly louder than both others. */
  predicate LowRule(b: Bands) { b.low > b.mid && b.low > b.high }

  /** Rule 5: high band strictly louder than both others. */
  predicate HighRule(b: Bands) { b.high > b.low && b.high > b.mid }

  /** The rule table, applied in order; the first rule that holds decides the
      label and ambient noise is the fall-back. A quiet volume means silence
      whatever the bands and the frequency; every other label needs its own
      rule to hold and every earlier rule to fail. */
  function Classify(volume: real, freq: real, b: Bands): (t: SoundType)
    ensures IsQuiet(volume) <==> t == Silence
    ensures t == Speech ==> !IsQuiet(volume) && SpeechRule(b, freq)
    ensures t == Music ==> !IsQuiet(volume) && !SpeechRule(b, freq) && MusicRule(b, volume)
    ensures t == LowFreqNoise ==> !IsQuiet(volume) && !SpeechRule(b, freq) && !MusicRule(b, volume) && LowRule(b)
    ensures t == HighFreqSound ==>
      !IsQuiet(volume) && !SpeechRule(b, freq) && !MusicRule(b, volume) && !LowRule(b) && HighRule(b)
    ensures t == AmbientNoise <==>
      !IsQuiet(volume) && !SpeechRule(b, freq) && !MusicRule(b, volume) && !LowRule(b) && !HighRule(b)
  {
    if IsQuiet(volume) then Silence
    else if SpeechRule(b, freq) then Speech
    else if MusicRule(b, volume) then Music
    else if LowRule(b) then LowFreqNoise
    else if HighRule(b) then HighFreqSound
    else AmbientNoise
  }

  /** The classifier as the component calls it: the unrounded volume, the
      reported frequency and the snapshot whose band means it takes. */
  function GetSoundType(volume: real, freq: real, bins: seq<byte>): (t: SoundType)
    requires |bins| > MidEnd
    ensures IsQuiet(volume) <==> t == Silence
    ensures t == Speech ==> BandsOf(bins).mid > BandsOf(bins).low && BandsOf(bins).mid > BandsOf(bins).high
  {
    Classify(volume, freq, BandsOf(bins))
  }

  /** At most one band strictly dominates the other two. */
  lemma DominanceExclusive(b: Bands)
    ensures !(LowRule(b) && HighRule(b))
    ensures !(LowRule(b) && b.mid > b.low)
    ensures !(HighRule(b) && b.mid > b.high)
  {
  }

  /** Outside silence and music, the label follows the strictly dominant band
      (and, for the mid band, the frequency window); the order of rules 2, 4
      and 5 among themselves never matters. */
  lemma DominantBandDecides(volume: real, freq: real, b: Bands)
    requires !IsQuiet(volume) && !MusicRule(b, volume)
    ensures LowRule(b) ==> Classify(volume, freq, b) == LowFreqNoise
    ensures HighRule(b) ==> Classify(volume, freq, b) == HighFreqSound
    ensures SpeechRule(b, freq) ==> Classify(volume, freq, b) == Speech
    ensures b.mid > b.low && b.mid > b.high && !SpeechRule(b, freq) ==> Classify(volume, freq, b) == AmbientNoise
  {
  }

  /** The music rule sits above the low- and high-band rules: a loud signal
      with a strong high band is music even when the low band dominates. */
  lemma MusicOutranksLowBand(volume: real, freq: real, b: Bands)
    requires !IsQuiet(volume) && MusicRule(b, volume) && LowRule(b)
    ensures Classify(volume, freq, b) == Music
  {
  }

  /** The silence rule on the real-valued volume is a bound on the integer sum
      of the snapshot. */
  lemma SilenceIffQuietSum(freq: real, bins: seq<byte>)
    requires |bins| > MidEnd
    ensures GetSoundType(Mean(bins), freq, bins) == Silence <==> Sum(bins) < 10 * |bins|
  {
    MeanThresholdIff(bins, 10);
  }

  /** If every band mean is below 10, so is the volume, and the snapshot is
      silence whatever its peak frequency. */
  lemma QuietBandsAreSilence(freq: real, bins: seq<byte>)
    requires |bins| > MidEnd
    requires BandsOf(bins).low < 10.0 && BandsOf(bins).mid < 10.0 && BandsOf(bins).high < 10.0
    ensures GetSoundType(Mean(bins), freq, bins) == Silence
  {
    BandsPartition(bins);
    MeanThresholdIff(bins[..LowEnd], 10);
    MeanThresholdIff(bins[LowEnd..MidEnd], 10);
    MeanThresholdIff(bins[MidEnd..], 10);
    MeanThresholdIff(bins, 10);
  }

  /** Music needs more than 40 per bin over the high band and more than 30 per
      bin over the whole snapshot, as integer sums. */
  lemma MusicNeedsEnergy(freq: real, bins: seq<byte>)
    requires |bins| > MidEnd
    requires GetSoundType(Mean(bins), freq, bins) == Music
    ensures Sum(bins[MidEnd..]) > 40 * (|bins| - MidEnd)
    ensures Sum(bins) > 30 * |bins|
  {
    MeanThresholdIff(bins[MidEnd..], 40);
    MeanThresholdIff(bins, 30);
  }

  /** At common sample rates (at least 3000 * 1024 / 85, about 36.14 kHz) the
      speech window keeps the dominant bin inside the low band, although the
      speech rule also demands a mid band louder on average than the low band. */
  lemma SpeechPeakInLowBand(bins: seq<byte>, k: nat, sampleRate: real)
    requires |bins| > MidEnd && IsFirstMax(bins, k)
    requires 85.0 * sampleRate >= 3000.0 * (2 * FftSize) as real
    requires GetSoundType(Mean(bins), DominantFreq(k, sampleRate, FftSize), bins) == Speech
    ensures k < LowEnd
    ensures BandsOf(bins).mid > BandsOf(bins).low
  {
    var f := DominantFreq(k, sampleRate, FftSize);
    var d := (2 * FftSize) as real;
    assert f < 3000.0;
    assert f * d == k as real * sampleRate;
    ScaleLess(f, 3000.0, d);
    ScaleLess(k as real, 85.0, sampleRate);
  }

  /** A tone filling the mid band at amplitude 200 over a silent rest, sampled
      at 48 kHz: its peak is bin 85, reported as 3984.375 Hz, outside the
      speech window, so the snapshot is classified as ambient noise. */
  lemma MidBandToneIsAmbient(k: nat)
    requires IsFirstMax(MidBandTone(), k)
    ensures k == LowEnd
    ensures DominantFreq(k, 48000.0, FftSize) == 3984.375
    ensures GetSoundType(Mean(MidBandTone()), DominantFreq(k, 48000.0, FftSize), MidBandTone()) == AmbientNoise
  {
    var bins := MidBandTone();
    var zl, tone, zh := Zeros(85), seq(85, _ => 200), Zeros(86);
    assert bins[..LowEnd] == zl;
    assert bins[LowEnd..MidEnd] == tone;
    assert bins[MidEnd..] == zh;
    assert IsFirstMax(bins, LowEnd);
    FirstMaxUnique(bins, k, LowEnd);
    SumConstant(85, 0);
    SumConstant(85, 200);
    SumConstant(86, 0);
    assert zl == seq(85, _ => 0);
    assert zh == seq(86, _ => 0);
    BandsPartition(bins);
    assert Sum(bins) == 17000;
    MeanThresholdIff(bins, 10);
  }

  /** Bins `[85, 170)` at amplitude 200, all others silent, 256 bins in all. */
  function MidBandTone(): (bins: seq<byte>)
    ensures |bins| == BinCount
  {
    seq(256, i => if LowEnd <= i < MidEnd then 200 else 0)
  }
}
