/** One analysis frame end to end, and the state published when listening
    stops. A frame reads one snapshot, derives the volume and the dominant
    frequency, classifies the sound, publishes rounded values for display, and
    redraws both canvases from the same snapshot. */
module Session {
  import opened Bins
  import opened Features
  import opened Classifier
  import opened Spectrum
  import opened Spectrogram

  /** The values handed to the display after a frame. */
  datatype Published = Published(frequencyData: seq<byte>, volume: int, dominantFreq: int, soundType: SoundType)

  /** The values published before the first frame and after stopping: a
      silent 256-bin snapshot, zero volume and frequency, and the label the
      classifier gives that snapshot. */
  function Baseline(): (p: Published)
    ensures |p.frequencyData| == BinCount
    ensures forall i :: 0 <= i < BinCount ==> p.frequencyData[i] == 0
    ensures p.volume == 0 && p.dominantFreq == 0
    ensures p.soundType == GetSoundType(Mean(p.frequencyData), 0.0, p.frequencyData)
  {
    MeanZeroIff(Zeros(BinCount));
    Published(Zeros(BinCount), 0, 0, Silence)
  }

  /** Everything one frame computes: the unrounded features, the label, the
      published copy and the two canvases. */
  datatype Frame = Frame(
    volume: real,
    maxIndex: nat,
    dominantFreq: real,
    soundType: SoundType,
    published: Published,
    scene: Scene,
    spectrogram: Result<Raster>)

  /** One frame for snapshot `bins` at the context's `sampleRate`, with the
      visualisation canvas `width` by `height` and the spectrogram `raster`.
      The classifier sees the unrounded volume and frequency; only the
      published copies are rounded, and the published volume is a whole
      number in `[0, 255]`. A silent 256-bin snapshot publishes exactly the
      baseline that stopping restores. */
  method Analyze(bins: seq<byte>, sampleRate: real, width: nat, height: nat, raster: Raster)
    returns (f: Frame)
    requires |bins| > MidEnd && sampleRate > 0.0 && Valid(raster)
    ensures f.volume == Mean(bins) && 0.0 <= f.volume <= 255.0
    ensures IsFirstMax(bins, f.maxIndex)
    ensures f.dominantFreq == DominantFreq(f.maxIndex, sampleRate, FftSize)
    ensures f.soundType == GetSoundType(f.volume, f.dominantFreq, bins)
    ensures f.published.frequencyData == bins && f.published.soundType == f.soundType
    ensures f.published.volume == Round(f.volume) && 0 <= f.published.volume <= 255
    ensures f.published.dominantFreq == Round(f.dominantFreq) && f.published.dominantFreq >= 0
    ensures f.scene == DrawVisualization(bins, width, height)
    ensures f.spectrogram == Append(raster, bins)
    ensures |bins| == BinCount && (forall i :: 0 <= i < |bins| ==> bins[i] == 0) ==> f.published == Baseline()
  {
    var volume := Mean(bins);
    var maxIndex, _ := FindDominantBin(bins);
    var dominantFreq := DominantFreq(maxIndex, sampleRate, FftSize);
    var soundType := GetSoundType(volume, dominantFreq, bins);
    RoundWithin(volume, 0, 255);
    RoundWithin(dominantFreq, 0, dominantFreq.Floor + 1);
    var published := Published(bins, Round(volume), Round(dominantFreq), soundType);
    if |bins| == BinCount && forall i :: 0 <= i < |bins| ==> bins[i] == 0 {
      MeanZeroIff(bins);
      assert bins == Zeros(BinCount);
    }
    f := Frame(volume, maxIndex, dominantFreq, soundType, published,
               DrawVisualization(bins, width, height), Append(raster, bins));
  }

  /** The component's state between frames: whether it is listening, what it
      last published, and the spectrogram canvas. */
  datatype State = State(listening: bool, published: Published, spectrogram: Raster)

  /** Stopping: listening ends and the baseline is published. The spectrogram
      canvas is left as it was; nothing clears it. */
  function Stop(s: State): (t: State)
    ensures !t.listening && t.published == Baseline()
    ensures t.spectrogram == s.spectrogram
  {
    State(false, Baseline(), s.spectrogram)
  }

  /** Stopping twice is the same as stopping once. */
  lemma StopIdempotent(s: State)
    ensures Stop(Stop(s)) == Stop(s)
  {
  }
}
