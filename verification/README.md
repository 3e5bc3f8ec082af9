# Sound visualizer: per-frame analysis model

This project is a Dafny model of the analysis core of the `SoundVisualizer` React
component (`scr/App.jsx`). Each animation frame, the component reads a frequency
snapshot of 256 byte-valued bins from a Web Audio analyser node. From it, the
component computes:

- the volume (mean amplitude);
- the dominant bin and the frequency reported for it;
- three band means, low `[0, 85)`, mid `[85, 170)` and high `[170, len)`.

It classifies the sound into one of six Russian labels and publishes rounded
values for display. It then draws, from the same snapshot:

- 32 bars, a circle and 8 rays on one canvas;
- one new column of a scrolling spectrogram on another.

All of this becomes pure functions over an immutable snapshot `seq<byte>`.
`byte` is the subset type `0..255`, which is what a `Uint8Array` holds. The snapshot
length is a parameter. Operations that take band means require `|bins| > 170`. The
analyser always delivers 256 bins. Means, colours and sizes are exact `real`
values.

Modules, one per stage of the frame:

- `Bins` (`bins.dfy`): the byte type, left-to-right `Sum`, `Mean`, and the link between
  thresholds on a mean and bounds on the integer sum.
- `Features` (`features.dfy`): the dominant-bin scan (a loop with invariants), the
  reported frequency, and `Math.round`.
- `Classifier` (`classifier.dfy`): the six labels and their strings, the band means,
  the ordered rule table, and properties of the classification.
- `Spectrum` (`spectrum.dfy`): the bin-sampling map `floor(i * len / n)`, the bar
  geometry and colours, the circle and the rays, as values rather than draw calls.
- `Spectrogram` (`spectrogram.dfy`): the canvas as a sequence of columns, the spectrogram
  colour, the bottom-up painted column, the shift-and-append step, and its history
  over many frames.
- `Session` (`session.dfy`): one whole frame (`Analyze`), and the baseline published by
  `stopListening`.

Facts about the code that a reader might not expect:

- The reported frequency is `maxIndex * sampleRate / (fftSize * 2)` (line 101). That is
  half of the bin's centre frequency `maxIndex * sampleRate / fftSize`. `DominantFreq`
  states this relation.
- Stopping resets the published values only (lines 67-73). The spectrogram canvas is
  not cleared (`Session.Stop`).
- A tone over bins `[85, 170)` at amplitude 200, with all other bins 0, sampled at
  48 kHz, peaks at bin 85. It is reported as 3984.375 Hz, outside the speech window
  (200, 3000), so it is classified as ambient noise (`Classifier.MidBandToneIsAmbient`).
- The band boundaries are the fixed indices 85 and 170, not fractions of the snapshot
  length.

A related consequence of line 101 is proved in `Classifier.SpeechPeakInLowBand`. At
sample rates of at least 3000 * 1024 / 85 Hz, about 36.14 kHz (44.1 kHz and 48 kHz
included), speech can only be reported when the loudest bin lies in the low band, even
though the speech rule also demands a mid band louder on average than the low band.

## Model

| member | source | states |
|---|---|---|
| `Bins.Sum` | scr/App.jsx:88 | the left-to-right sum of a snapshot lies between 0 and 255 times its length |
| `Bins.Mean` | scr/App.jsx:88 | the volume is a mean: it lies in [0, 255] and times the bin count gives back the sum |
| `Bins.MeanZeroIff` | scr/App.jsx:88 | the volume is zero exactly when every bin is zero |
| `Bins.MeanThresholdIff` | scr/App.jsx:123 | a threshold `t` on a mean is the integer bound `sum < t * len` (and likewise for `>`) |
| `Bins.SumConcat` | scr/App.jsx:126-128 | the sum over a concatenation is the sum of the parts' sums |
| `Bins.SumConstant` | scr/App.jsx:88 | n bins of equal amplitude v sum to n * v |
| `Features.FindDominantBin` | scr/App.jsx:91-98 | the strict-`>` scan from 0 returns the first index holding the largest amplitude, and index 0 for an empty or all-zero snapshot |
| `Features.FirstMaxUnique` | scr/App.jsx:91-98 | the first-maximum index is unique, so the scan's result is determined by the snapshot |
| `Features.DominantFreq` | scr/App.jsx:100-101 | the reported frequency is half the bin's centre frequency, never negative, and zero exactly when the dominant bin is 0 |
| `Features.DominantFreqMonotone` | scr/App.jsx:101 | a higher dominant bin never reports a lower frequency |
| `Features.Round` | scr/App.jsx:108-109 | `Math.round` gives the nearest integer, with halves rounded up |
| `Features.RoundWithin` | scr/App.jsx:108 | rounding a value inside integer bounds stays inside them, so the published volume is in [0, 255] |
| `Classifier.Label` | scr/App.jsx:123-139 | each label is published as its own non-empty Russian string, which reads back as that label |
| `Classifier.ParseLabelSound` | scr/App.jsx:123-139 | a string read back as a label is that label's published string |
| `Classifier.LabelInjective` | scr/App.jsx:123-139 | no two labels share a published string |
| `Classifier.BandsOf` | scr/App.jsx:126-128 | each band mean lies in [0, 255], and times its band size gives the band's sum (85, 85 and len - 170 bins) |
| `Classifier.BandsPartition` | scr/App.jsx:126-128 | the three bands cover every bin exactly once: their sums add up to the snapshot's sum |
| `Classifier.VolumeIsWeightedBands` | scr/App.jsx:126-128 | the volume is the bin-count-weighted average of the three band means |
| `Classifier.Classify` | scr/App.jsx:122-141 | the first rule that holds decides: silence exactly when the volume is below 10; each other label requires its rule to hold and every earlier rule to fail; ambient noise exactly when no rule holds |
| `Classifier.GetSoundType` | scr/App.jsx:104 | classifying a snapshot gives silence exactly when the unrounded volume is below 10, and speech only when the mid band strictly dominates |
| `Classifier.DominanceExclusive` | scr/App.jsx:130-137 | at most one band strictly dominates the other two |
| `Classifier.DominantBandDecides` | scr/App.jsx:130-139 | outside silence and music the label follows the strictly dominant band, so the order of the speech, low and high rules among themselves does not matter |
| `Classifier.MusicOutranksLowBand` | scr/App.jsx:132-135 | for every loud input that meets both the music rule and the low-band rule, the label is music |
| `Classifier.SilenceIffQuietSum` | scr/App.jsx:123 | a snapshot is silence exactly when its integer sum is below 10 times its length |
| `Classifier.QuietBandsAreSilence` | scr/App.jsx:123-128 | if all three band means are below 10, the snapshot is silence at any frequency |
| `Classifier.MusicNeedsEnergy` | scr/App.jsx:132-133 | music needs a high-band sum above 40 per bin and a total sum above 30 per bin |
| `Classifier.SpeechPeakInLowBand` | scr/App.jsx:130-131 | at sample rates of at least 3000 * 1024 / 85 Hz (about 36.14 kHz), speech implies a dominant bin below 85 |
| `Classifier.MidBandToneIsAmbient` | scr/App.jsx:122-140 | a 200-amplitude tone over bins [85, 170) at 48 kHz peaks at bin 85, reports 3984.375 Hz and is ambient noise |
| `Spectrum.SampleIndex` | scr/App.jsx:158 | `floor(i * len / n)` for `i < n` is always a valid bin index |
| `Spectrum.FloorOfScaled` | scr/App.jsx:191 | element i samples the bin whose share [k*n, (k+1)*n) of the scaled range holds i*len |
| `Spectrum.SampleIndexMonotone` | scr/App.jsx:222 | later bars, rays or rows sample the same or a later bin |
| `Spectrum.SampleIndexStrict` | scr/App.jsx:158 | with no more elements than bins, distinct bars or rays sample distinct bins |
| `Spectrum.SampleIndexIdentity` | scr/App.jsx:222 | with as many elements as bins, element i samples bin i |
| `Spectrum.SampleIndexCovers` | scr/App.jsx:222 | with at least as many rows as bins, every bin is shown by some row |
| `Spectrum.Level` | scr/App.jsx:159 | an amplitude's share of full scale lies in [0, 1] and times 255 gives back the amplitude |
| `Spectrum.BarHeight` | scr/App.jsx:159 | a bar's height is proportional to its amplitude: 255 times the height is 0.8 times the amplitude times the canvas height, so it is at most 80% of the canvas and zero exactly for a zero amplitude or a zero-height canvas |
| `Spectrum.BarHeightMonotone` | scr/App.jsx:159 | a louder bin never draws a shorter bar, and amplitude 255 reaches 80% of the canvas height |
| `Spectrum.BarHue` | scr/App.jsx:161 | bar hues run from 200 up to below 260, rising by 60/32 per bar |
| `Spectrum.BarHueIncreasing` | scr/App.jsx:161 | the first bar has hue 200 and every later bar a strictly higher hue |
| `Spectrum.BarSaturation` | scr/App.jsx:162 | saturation is at most 100, reaches 100 exactly from amplitude 200 up, and below that is half the amplitude |
| `Spectrum.BarLightness` | scr/App.jsx:163 | bar lightness lies in [50, 80] |
| `Spectrum.BarLightnessRoundTrip` | scr/App.jsx:163 | the amplitude can be read back from a bar's lightness |
| `Spectrum.Bars` | scr/App.jsx:154-167 | 32 bars, each standing on the bottom edge in its 1/32 slot less a one-pixel gap, sized and coloured from its sampled bin |
| `Spectrum.CircleOf` | scr/App.jsx:178-183 | the circle's opacity is the mean's share of full scale, and its radius is 20 + 60 times that share, within [20, 80] |
| `Spectrum.CircleSmallestIffSilent` | scr/App.jsx:178-179 | the circle has its smallest radius, 20, exactly when the snapshot is silent |
| `Spectrum.Rays` | scr/App.jsx:188-202 | 8 rays at i/8 of a turn, each starting on the circle, with length 80 times its opacity, at most 80 |
| `Spectrum.DrawVisualization` | scr/App.jsx:143-171 | one frame draws 32 bars and 8 rays, each ray starting on the circle's edge and ending within 160 of the centre |
| `Spectrogram.Blank` | scr/App.jsx:248-251 | a freshly sized canvas has the given dimensions and is transparent everywhere |
| `Spectrogram.IntensityColor` | scr/App.jsx:223-226 | spectrogram hue is in [180, 240], saturation is 80, lightness is in [10, 70], and hue plus lightness is 250 |
| `Spectrogram.IntensityRoundTrip` | scr/App.jsx:226 | the amplitude can be read back from a spectrogram colour |
| `Spectrogram.NewColumn` | scr/App.jsx:221-230 | the new column has one painted pixel per row, all at saturation 80 |
| `Spectrogram.NewColumnBottomUp` | scr/App.jsx:222-229 | row `height - 1 - i` shows bin `floor(i * len / height)` |
| `Spectrogram.NewColumnFrequencyOrder` | scr/App.jsx:222-229 | the new column's bottom pixel is painted from bin 0, and the sampled bin never falls going up the column |
| `Spectrogram.NewColumnReadsBack` | scr/App.jsx:221-229 | on a canvas as tall as the snapshot, the column read bottom-up gives back the snapshot |
| `Spectrogram.Append` | scr/App.jsx:208-231 | fails exactly for a one-column or zero-row canvas; otherwise keeps the size, moves column c+1 to c, and paints the new column at the right edge |
| `Spectrogram.AppendAll` | scr/App.jsx:217-218 | any run of frames keeps the canvas valid and its size unchanged |
| `Spectrogram.AppendHistory` | scr/App.jsx:217-229 | after n frames (n at most the width), the old canvas has moved n columns left and the last n columns are the frames' columns, oldest first |
| `Session.Analyze` | scr/App.jsx:83-119 | the classifier receives the unrounded mean and frequency of the first maximum; the published volume is an integer in [0, 255]; an all-zero 256-bin snapshot publishes exactly the stop baseline |
| `Session.Baseline` | scr/App.jsx:7-12 | the initial and reset published state is a silent 256-bin snapshot with zero volume and frequency, labelled as the classifier labels that snapshot |
| `Session.Stop` | scr/App.jsx:56-74 | stopping ends listening and publishes the baseline, and leaves the spectrogram canvas untouched |
| `Session.StopIdempotent` | scr/App.jsx:67-73 | stopping twice is the same as stopping once |

## Left out

- Microphone and audio-context acquisition, the permission error string, and track and context teardown (scr/App.jsx:21-65): browser I/O.
- The FFT and its temporal smoothing (`smoothingTimeConstant`, `getByteFrequencyData`): they happen inside the browser's analyser node, and the snapshot is taken as an input.
- The time-domain buffer (scr/App.jsx:81, 85): it is captured but never used.
- `requestAnimationFrame` scheduling, React state and effects, and the JSX (scr/App.jsx:116, 233-340): event-loop and UI glue. The sample rate is a parameter of `Session.Analyze`.
- Ray endpoint coordinates via `Math.cos`/`Math.sin` and the canvas draw calls themselves: trigonometry and rendering. A ray keeps its angle as a fraction of a turn, its start radius and its length.
- IEEE-754 rounding of JavaScript numbers: the model's `real` arithmetic is exact. This covers the mean's division by the bin count (256), the band divisions by 85 and 86, the divisions by 255, 1024, 32, 8, 2 and the canvas height, and every product built from them.
- Canvas pixel storage: a spectrogram pixel keeps the exact HSL triple it was painted with, where a real canvas stores 8-bit RGBA. `Spectrogram.IntensityRoundTrip` and `Spectrogram.NewColumnReadsBack` read amplitudes back from those exact colours. On a real canvas the read-back would be only approximate.
- The `if (!canvas) return` guards (scr/App.jsx:145, 210): the model assumes both canvases are mounted.
- Classifier.GetSoundType: requires more than 170 bins. The analyser always reports 256. For shorter snapshots the source still returns silence when the volume is below 10 (line 123), and otherwise divides the high band by zero or a negative count (line 128).
- Spectrogram.Append: the error result stands for the exception `getImageData` throws. The model does not follow that exception to its effect, which is that the next frame is never scheduled.
- Spectrogram.AppendAll: defined only for canvases at least two columns wide and one row tall, where every frame succeeds.
