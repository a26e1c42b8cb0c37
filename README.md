# Music Visualizer — core model

A Dafny model of the core of the Android music player with a live audio
visualizer, `com.harrisonog.musicvisualizer`. Two paths are modelled.

The first is the audio path. The Media3 audio processor `FftAudioProcessor` is
configured for an input encoding. It decodes each PCM buffer (16-bit or float)
to samples and downmixes stereo to mono. The samples go into an 8192-sample
ring buffer (`CircularFloatBuffer`). For every full 2048-sample window, hopping
by 1024 samples, it applies the Hann window and runs the FFT. It turns the
spectrum into 1024 magnitudes normalised to [0, 1] and emits one
`VisualizerFrame` with an rms value and a timestamp. `VisualizerEngine`
smooths the stream of frames with an exponential moving average (factor 0.3).
It can also reduce a spectrum to a number of bars (max per bin) and apply a
log10 curve. `VisualizerViewModel` cycles and selects between the four
renderers.

The second is the player and library path. `Song`, `PlaybackState` and
`Playlist` and their "m:ss" and "h hr m min" texts are modelled. The seek bar
has its drag state. The library screen state is the search filter, the stable
case-insensitive sort and the loading flag. The `MediaItem` mapping is
modelled, and so is `MusicServiceConnection`: the commands it sends to the
Media3 controller, the player-listener callbacks, and how it republishes the
playback state, the current song and the queue.

## Layout

| file | module | models |
|---|---|---|
| `wrappers.dfy` | `Wrappers` | `Option` (Kotlin's nullable values) |
| `decimal.dfy` | `Decimal` | Long range, truncating `/` and `%`, `%d`/`%02d` text, `toLongOrNull` |
| `circular_float_buffer.dfy` | `RingBuffer` | `CircularFloatBuffer` as a class over an array |
| `fft_audio_processor.dfy` | `FftProcessor` | `FftAudioProcessor`: decoding, downmix, window, magnitudes, frames, the hop loop |
| `visualizer_frame.dfy` | `Frames` | `VisualizerFrame`, its `equals` and `hashCode` |
| `visualizer_engine.dfy` | `Engine` | `VisualizerEngine`: smoothing, fold, downsampling, log scale |
| `visualizer_view_model.dfy` | `RendererSelection` | `VisualizerViewModel` and the renderer list |
| `song.dfy` | `Songs` | `Song` and `durationFormatted` |
| `playback_state.dfy` | `Playback` | `PlaybackState`, `RepeatMode`, progress and texts |
| `playlist.dfy` | `Playlists` | `Playlist` totals and text |
| `seek_bar.dfy` | `SeekBar` | the seek bar's drag state and label |
| `library_view_model.dfy` | `Library` | `LibraryViewModel`: search, sort, screen state, commands |
| `media_item_mapper.dfy` | `MediaItems` | `MediaItemMapper` |
| `music_service_connection.dfy` | `ServiceConnection` | `MusicServiceConnection` |

Imperative parts are classes whose methods change fields: the ring buffer,
the processor, the view models, the seek bar and the connection. Their
`ensures` relate the new state to specification functions over the old state.
Published flows are plain fields. Frames emitted by the processor are a ghost
sequence `emitted`. Pure Kotlin computations are functions with lemmas.

Numerical library calls cannot be seen and become a record of functions
(`FftProcessor.Numerics`). These are JTransforms `realForward`, `sqrt`, `cos`,
the float decoding of four bytes, and the finiteness test. The model assumes
only the predicate `Lawful`: the FFT keeps the length, and `sqrt` is
non-negative on non-negative inputs. `log10` and `Float.hashCode` are
parameters. Floats are modelled as reals. The clock
(`System.currentTimeMillis`) is a parameter `clock`, read once per emitted
frame.

## Model

| member | source | states |
|---|---|---|
| Decimal.TruncatingIsEuclideanForNonNegative | app/src/main/java/com/harrisonog/musicvisualizer/domain/model/Song.kt:27-28 | For a non-negative duration, Long's truncating `/` and `%` are Euclidean division, and the remainder lies in [0, divisor) |
| Decimal.Digits | app/src/main/java/com/harrisonog/musicvisualizer/domain/model/Song.kt:29 | The decimal text of a natural number is non-empty and made only of digits |
| Decimal.DigitsRoundTrip | app/src/main/java/com/harrisonog/musicvisualizer/domain/model/Song.kt:29 | Reading back the digits printed for n gives n |
| Decimal.DigitsInjective | app/src/main/java/com/harrisonog/musicvisualizer/domain/model/Song.kt:29 | Different numbers never print the same digits |
| Decimal.ParseLong | app/src/main/java/com/harrisonog/musicvisualizer/service/player/MediaItemMapper.kt:43 | `toLongOrNull` yields a value only within the signed 64-bit range |
| Decimal.LongTextRoundTrip | app/src/main/java/com/harrisonog/musicvisualizer/service/player/MediaItemMapper.kt:19 | For every Long id, `toLongOrNull` of `id.toString()` gives the id back |
| Decimal.Pad2TwoDigits | app/src/main/java/com/harrisonog/musicvisualizer/domain/model/Song.kt:29 | `%02d` of a value in 0..99 is exactly two digits reading back as that value |

| RingBuffer.CircularFloatBuffer.constructor | app/src/main/java/com/harrisonog/musicvisualizer/service/visualizer/CircularFloatBuffer.kt:7-11 | A fresh buffer has the given capacity, holds nothing and has both positions at 0 |
| RingBuffer.CircularFloatBuffer.Write | app/src/main/java/com/harrisonog/musicvisualizer/service/visualizer/CircularFloatBuffer.kt:17-28 | After a write the buffer holds the newest `capacity` samples of old contents followed by the new samples, oldest first; the size grows up to the capacity |
| RingBuffer.CircularFloatBuffer.Put | app/src/main/java/com/harrisonog/musicvisualizer/service/visualizer/CircularFloatBuffer.kt:18-26 | One sample is appended; when the buffer was full the oldest sample is dropped (read position advances) |
| RingBuffer.CircularFloatBuffer.Read | app/src/main/java/com/harrisonog/musicvisualizer/service/visualizer/CircularFloatBuffer.kt:34-41 | Reading `count <= size` samples returns the oldest `count` samples in order and changes nothing |
| RingBuffer.CircularFloatBuffer.Advance | app/src/main/java/com/harrisonog/musicvisualizer/service/visualizer/CircularFloatBuffer.kt:47-51 | Advancing by `count <= size` drops exactly the oldest `count` samples; the write position is kept |
| RingBuffer.CircularFloatBuffer.Available | app/src/main/java/com/harrisonog/musicvisualizer/service/visualizer/CircularFloatBuffer.kt:56 | The available count is the number of samples held |
| RingBuffer.CircularFloatBuffer.Clear | app/src/main/java/com/harrisonog/musicvisualizer/service/visualizer/CircularFloatBuffer.kt:61-65 | Clearing empties the buffer and resets both positions |
| RingBuffer.CircularFloatBuffer.HasAvailable | app/src/main/java/com/harrisonog/musicvisualizer/service/visualizer/CircularFloatBuffer.kt:70 | True exactly when at least `count` samples are held |
| RingBuffer.NewestLength | app/src/main/java/com/harrisonog/musicvisualizer/service/visualizer/CircularFloatBuffer.kt:21-26 | The retained window has the total length, capped at the capacity |
| Frames.Equals | app/src/main/java/com/harrisonog/musicvisualizer/domain/model/VisualizerFrame.kt:15-26 | `equals` on a frame reference and any other value; its meaning is `Frames.EqualsIsContentEquality` |
| Frames.EqualsIsContentEquality | app/src/main/java/com/harrisonog/musicvisualizer/domain/model/VisualizerFrame.kt:15-26 | Two frames are equal exactly when magnitudes (element-wise), rms and timestamp agree; a frame equals itself; null or another class is never equal |
| Frames.Int32 | app/src/main/java/com/harrisonog/musicvisualizer/domain/model/VisualizerFrame.kt:28-33 | The 32-bit wrap of an `Int` computation lies in the Int range and is congruent to the exact value modulo 2^32 |
| Frames.LongHash | app/src/main/java/com/harrisonog/musicvisualizer/domain/model/VisualizerFrame.kt:31 | `Long.hashCode` (high word xor low word) is a 32-bit value |
| Frames.HashCode | app/src/main/java/com/harrisonog/musicvisualizer/domain/model/VisualizerFrame.kt:28-33 | `31 * (31 * contentHash + rms hash) + timestamp hash` with 32-bit wrap-around; it agrees with equality by `Frames.EqualsImpliesEqualHash` |
| Frames.EqualsImpliesEqualHash | app/src/main/java/com/harrisonog/musicvisualizer/domain/model/VisualizerFrame.kt:15-33 | Equal frames have equal hash codes (the equals/hashCode contract), for rms values modelled as reals; see "## Left out" for the signed-zero and NaN cases |
| Engine.SmoothFrames | app/src/main/java/com/harrisonog/musicvisualizer/service/visualizer/VisualizerEngine.kt:56-82 | One smoothing step between two frames; its result is stated by `Engine.SmoothFramesShape`, `Engine.SmoothFramesEmptyCases` and `Engine.SmoothFramesKeepsUnit` |
| Engine.SmoothFramesShape | app/src/main/java/com/harrisonog/musicvisualizer/service/visualizer/VisualizerEngine.kt:56-82 | With both spectra non-empty, the smoothed frame has the current frame's length and timestamp; shared bins are 0.7*previous + 0.3*current, extra bins are the current ones, and rms is smoothed the same way |
| Engine.SmoothFramesEmptyCases | app/src/main/java/com/harrisonog/musicvisualizer/service/visualizer/VisualizerEngine.kt:61-62 | An empty previous spectrum yields the current frame; an empty current spectrum yields the previous frame; the empty frame is never blended |
| Engine.SmoothFramesKeepsUnit | app/src/main/java/com/harrisonog/musicvisualizer/service/visualizer/VisualizerEngine.kt:56-82 | Smoothing two frames whose magnitudes and rms lie in [0, 1] yields such a frame |
| Engine.SmoothTowardsGap | app/src/main/java/com/harrisonog/musicvisualizer/service/visualizer/VisualizerEngine.kt:27 | After k smoothing steps towards a fixed frame, each bin's signed gap to it is the initial gap times 0.7^k (the 0.3 smoothing factor) |
| Engine.SmoothingConverges | app/src/main/java/com/harrisonog/musicvisualizer/service/visualizer/VisualizerEngine.kt:27 | Nine frames of a steady spectrum bring every bin within 5% of its initial distance to that spectrum |
| Engine.SmoothedFrame | app/src/main/java/com/harrisonog/musicvisualizer/service/visualizer/VisualizerEngine.kt:33-46 | The frame published after a sequence of processor frames (the `runningFold` then `?: EMPTY`); characterised by `Engine.SmoothedFrameRecurrence` |
| Engine.SmoothedFrameRecurrence | app/src/main/java/com/harrisonog/musicvisualizer/service/visualizer/VisualizerEngine.kt:33-46 | The published frame is EMPTY before any frame, the first frame unchanged, and afterwards the smoothing of the previously published frame with the new one |
| Engine.BinsTile | app/src/main/java/com/harrisonog/musicvisualizer/service/visualizer/VisualizerEngine.kt:93-97 | With fewer bars than bins, the bins start at 0, end at the array's end, abut each other and are each non-empty |
| Engine.DownsampleMagnitudes | app/src/main/java/com/harrisonog/musicvisualizer/service/visualizer/VisualizerEngine.kt:88-110 | Empty input or non-positive bar count gives an empty result; no more bins than bars returns a copy; otherwise `targetBars` values, each the maximum (floored at 0) of its bin |
| Engine.BarMax | app/src/main/java/com/harrisonog/musicvisualizer/service/visualizer/VisualizerEngine.kt:99-105 | The bar value is the largest magnitude in the bin, or 0 when all are smaller or the bin is empty |
| Engine.ApplyLogScale | app/src/main/java/com/harrisonog/musicvisualizer/service/visualizer/VisualizerEngine.kt:116-124 | The result has the input's length and every value in [0, 1]; the empty array is returned as is |
| Engine.LogScaleMonotone | app/src/main/java/com/harrisonog/musicvisualizer/service/visualizer/VisualizerEngine.kt:119-123 | Log scaling keeps the order of magnitudes and fixes 0 and 1 |
| RendererSelection.IndexOfFirst | app/src/main/java/com/harrisonog/musicvisualizer/presentation/visualizer/VisualizerViewModel.kt:84 | `indexOfFirst` returns the first index whose id matches, or -1 exactly when none matches |
| RendererSelection.NextIndex | app/src/main/java/com/harrisonog/musicvisualizer/presentation/visualizer/VisualizerViewModel.kt:66 | `(index + 1) % size`; inverse of `RendererSelection.PreviousIndex` by `RendererSelection.CyclingInverse` |
| RendererSelection.PreviousIndex | app/src/main/java/com/harrisonog/musicvisualizer/presentation/visualizer/VisualizerViewModel.kt:73-77 | `index - 1`, or the last index from 0; inverse of `RendererSelection.NextIndex` by `RendererSelection.CyclingInverse` |
| RendererSelection.CyclingInverse | app/src/main/java/com/harrisonog/musicvisualizer/presentation/visualizer/VisualizerViewModel.kt:65-78 | Next and previous stay within the renderer list and undo each other |
| RendererSelection.NextTimes | app/src/main/java/com/harrisonog/musicvisualizer/presentation/visualizer/VisualizerViewModel.kt:65-67 | Any number of next steps stays within the list |
| RendererSelection.NextTimesIsRotation | app/src/main/java/com/harrisonog/musicvisualizer/presentation/visualizer/VisualizerViewModel.kt:65-67 | k next steps from index i land on (i + k) mod n, so n steps come back to the start |
| RendererSelection.EveryTypeHasRenderer | app/src/main/java/com/harrisonog/musicvisualizer/presentation/visualizer/VisualizerViewModel.kt:37-42 | Each visualization type has a renderer in the list, with that type's id and display name |
| RendererSelection.VisualizerViewModel.constructor | app/src/main/java/com/harrisonog/musicvisualizer/presentation/visualizer/VisualizerViewModel.kt:44 | The first renderer is selected initially |
| RendererSelection.VisualizerViewModel.CurrentRenderer | app/src/main/java/com/harrisonog/musicvisualizer/presentation/visualizer/VisualizerViewModel.kt:50-51 | The current renderer is always one of the four renderers |
| RendererSelection.VisualizerViewModel.SelectRenderer | app/src/main/java/com/harrisonog/musicvisualizer/presentation/visualizer/VisualizerViewModel.kt:56-60 | A valid index is selected; an out-of-range index leaves the selection unchanged |
| RendererSelection.VisualizerViewModel.NextRenderer | app/src/main/java/com/harrisonog/musicvisualizer/presentation/visualizer/VisualizerViewModel.kt:65-67 | The selection moves to the next renderer, wrapping to the first |
| RendererSelection.VisualizerViewModel.PreviousRenderer | app/src/main/java/com/harrisonog/musicvisualizer/presentation/visualizer/VisualizerViewModel.kt:72-78 | The selection moves to the previous renderer, wrapping to the last |
| RendererSelection.VisualizerViewModel.SelectRendererByType | app/src/main/java/com/harrisonog/musicvisualizer/presentation/visualizer/VisualizerViewModel.kt:83-88 | The first renderer of the requested type is selected, so the current renderer has that type's id |
| FftProcessor.ByteBuffer.constructor | app/src/main/java/com/harrisonog/musicvisualizer/service/visualizer/FftAudioProcessor.kt:78 | A byte buffer with a read position within its limit |
| FftProcessor.Int16At | app/src/main/java/com/harrisonog/musicvisualizer/service/visualizer/FftAudioProcessor.kt:189-201 | Two bytes read as one signed 16-bit value in [-32768, 32768) |
| FftProcessor.Pcm16Samples | app/src/main/java/com/harrisonog/musicvisualizer/service/visualizer/FftAudioProcessor.kt:189-201 | The samples `convertPcm16ToFloat` returns (16-bit value / 32768); stated by `FftProcessor.Pcm16SamplesInRange` |
| FftProcessor.FloatSamples | app/src/main/java/com/harrisonog/musicvisualizer/service/visualizer/FftAudioProcessor.kt:203-215 | The samples `convertPcmFloatToFloat` returns, one per whole 4-byte group, through the float-decoding parameter; it is what `FftProcessor.FftAudioProcessor.ConvertPcmFloatToFloat` is proved to return |
| FftProcessor.Pcm16SamplesInRange | app/src/main/java/com/harrisonog/musicvisualizer/service/visualizer/FftAudioProcessor.kt:189-201 | PCM16 decoding yields one sample per whole pair of remaining bytes (none with fewer than 2 bytes), each in [-1, 1) |
| FftProcessor.StereoToMono | app/src/main/java/com/harrisonog/musicvisualizer/service/visualizer/FftAudioProcessor.kt:217-224 | Pairwise channel means, short input passed through; stated by `FftProcessor.StereoToMonoPairs` |
| FftProcessor.StereoToMonoPairs | app/src/main/java/com/harrisonog/musicvisualizer/service/visualizer/FftAudioProcessor.kt:217-224 | Downmixing halves the sample count (odd trailing sample dropped); opposite channels cancel to 0 and equal channels keep their value |
| FftProcessor.Clamp01 | app/src/main/java/com/harrisonog/musicvisualizer/service/visualizer/FftAudioProcessor.kt:142 | `coerceIn(0, 1)` lands in [0, 1] and keeps values already there |
| FftProcessor.HannWindow | app/src/main/java/com/harrisonog/musicvisualizer/service/visualizer/FftAudioProcessor.kt:38-40 | The window has 2048 coefficients |
| FftProcessor.HannWindowSymmetric | app/src/main/java/com/harrisonog/musicvisualizer/service/visualizer/FftAudioProcessor.kt:38-40 | Given a cosine symmetric about half a turn with cos 0 = 1, the Hann window is symmetric and zero at both ends |
| FftProcessor.RawBins | app/src/main/java/com/harrisonog/musicvisualizer/service/visualizer/FftAudioProcessor.kt:163-176 | There are 1024 raw bins |
| FftProcessor.MaxOfIsMaximum | app/src/main/java/com/harrisonog/musicvisualizer/service/visualizer/FftAudioProcessor.kt:178-180 | The peak is at least every bin and is attained by one |
| FftProcessor.Normalized | app/src/main/java/com/harrisonog/musicvisualizer/service/visualizer/FftAudioProcessor.kt:178-184 | Normalisation keeps the number of bins |
| FftProcessor.RawBinsNonNegative | app/src/main/java/com/harrisonog/musicvisualizer/service/visualizer/FftAudioProcessor.kt:163-176 | Every raw bin magnitude is non-negative |
| FftProcessor.MagnitudesNormalized | app/src/main/java/com/harrisonog/musicvisualizer/service/visualizer/FftAudioProcessor.kt:159-187 | computeMagnitudes yields 1024 values in [0, 1]; with a positive peak some bin is exactly 1, otherwise all are 0 |
| FftProcessor.NormalizedUnit | app/src/main/java/com/harrisonog/musicvisualizer/service/visualizer/FftAudioProcessor.kt:178-184 | Dividing non-negative bins by a positive peak and clamping gives [0, 1] with the peak at 1; a zero peak leaves all bins 0 |
| FftProcessor.LastPairNeverRead | app/src/main/java/com/harrisonog/musicvisualizer/service/visualizer/FftAudioProcessor.kt:163-176 | Bin 1023 is the Nyquist value |out[1]|, and the last two FFT outputs never influence the magnitudes |
| FftProcessor.RawBinReadsBelowLastPair | app/src/main/java/com/harrisonog/musicvisualizer/service/visualizer/FftAudioProcessor.kt:166-171 | Each raw bin depends only on the FFT outputs below index 2046 |
| FftProcessor.FrameOf | app/src/main/java/com/harrisonog/musicvisualizer/service/visualizer/FftAudioProcessor.kt:112-157 | The frame `processFrame` emits for a window, or none when a sample or magnitude is not finite; stated by `FftProcessor.FrameOfValid` |
| FftProcessor.FrameOfValid | app/src/main/java/com/harrisonog/musicvisualizer/service/visualizer/FftAudioProcessor.kt:112-157 | A window with a non-finite sample emits no frame; an emitted frame has 1024 finite magnitudes in [0, 1], rms in [0, 1] and the clock's timestamp |
| FftProcessor.NormalizeInPlace | app/src/main/java/com/harrisonog/musicvisualizer/service/visualizer/FftAudioProcessor.kt:178-184 | The in-place normalisation loop leaves the array equal to the normalised bins |
| FftProcessor.HopFrames | app/src/main/java/com/harrisonog/musicvisualizer/service/visualizer/FftAudioProcessor.kt:102-105 | The frames the `while` loop emits, in order; their number is stated by `FftProcessor.HopFramesCount`, one step by `FftProcessor.HopStep` |
| FftProcessor.HopRest | app/src/main/java/com/harrisonog/musicvisualizer/service/visualizer/FftAudioProcessor.kt:102-105 | The samples the `while` loop leaves buffered; stated by `FftProcessor.HopRestIsSuffix` |
| FftProcessor.RunsClosedForm | app/src/main/java/com/harrisonog/musicvisualizer/service/visualizer/FftAudioProcessor.kt:102-105 | From a buffer of a samples the loop runs 0 times below 2048 samples and otherwise (a - 2048) / 1024 + 1 times |
| FftProcessor.HopRestIsSuffix | app/src/main/java/com/harrisonog/musicvisualizer/service/visualizer/FftAudioProcessor.kt:102-105 | What the loop leaves behind is the suffix after the runs' hops: fewer than 2048 samples, and at least 1024 if it ran at all |
| FftProcessor.HopFramesCount | app/src/main/java/com/harrisonog/musicvisualizer/service/visualizer/FftAudioProcessor.kt:102-105 | At most one frame per run, and one per run exactly when no window is skipped as non-finite |
| FftProcessor.HopStep | app/src/main/java/com/harrisonog/musicvisualizer/service/visualizer/FftAudioProcessor.kt:102-105 | With a full window, one run emits the frame of the first 2048 samples and continues on the samples after one hop |
| FftProcessor.OverlapExamples | app/src/main/java/com/harrisonog/musicvisualizer/service/visualizer/FftAudioProcessor.kt:31-32 | 50% overlap: 3072 samples give two frames, 2048 give one, 2047 none |
| FftProcessor.FftAudioProcessor.constructor | app/src/main/java/com/harrisonog/musicvisualizer/service/visualizer/FftAudioProcessor.kt:29-55 | A new processor is inactive, has no input format, an empty 8192-sample buffer and has emitted nothing |
| FftProcessor.FftAudioProcessor.OnConfigure | app/src/main/java/com/harrisonog/musicvisualizer/service/visualizer/FftAudioProcessor.kt:57-76 | The input format is stored and returned unchanged; the processor is active exactly for PCM16 or PCM float encodings |
| FftProcessor.FftAudioProcessor.QueueInput | app/src/main/java/com/harrisonog/musicvisualizer/service/visualizer/FftAudioProcessor.kt:78-110 | Inactive: nothing is read, buffered or emitted. Active: the input bytes are decoded and consumed, stereo is downmixed, the ring buffer keeps the newest 8192 samples, then one frame per hop is emitted and the rest stays buffered |
| FftProcessor.FftAudioProcessor.ProcessAvailable | app/src/main/java/com/harrisonog/musicvisualizer/service/visualizer/FftAudioProcessor.kt:102-105 | The loop runs `Runs(size)` times, emits the hop frames of the buffered samples in order and leaves the unprocessed suffix buffered |
| FftProcessor.FftAudioProcessor.Hop | app/src/main/java/com/harrisonog/musicvisualizer/service/visualizer/FftAudioProcessor.kt:103-104 | One iteration emits the frame of the oldest 2048 samples (if valid) and drops the oldest 1024 |
| FftProcessor.FftAudioProcessor.ProcessFrame | app/src/main/java/com/harrisonog/musicvisualizer/service/visualizer/FftAudioProcessor.kt:112-157 | Reads the oldest 2048 samples without consuming them and emits their frame, or nothing when the frame is invalid |
| FftProcessor.FftAudioProcessor.ComputeMagnitudes | app/src/main/java/com/harrisonog/musicvisualizer/service/visualizer/FftAudioProcessor.kt:159-187 | The loop computes exactly the normalised bin magnitudes of the FFT output |
| FftProcessor.FftAudioProcessor.ConvertPcm16ToFloat | app/src/main/java/com/harrisonog/musicvisualizer/service/visualizer/FftAudioProcessor.kt:189-201 | Returns one PCM16 sample per whole pair of remaining bytes; the position moves to the limit when at least 2 bytes remain (a stray odd byte is consumed and dropped), otherwise it stays |
| FftProcessor.FftAudioProcessor.ConvertPcmFloatToFloat | app/src/main/java/com/harrisonog/musicvisualizer/service/visualizer/FftAudioProcessor.kt:203-215 | Returns one float sample per whole 4-byte group of remaining bytes; the position moves to the limit when at least 4 bytes remain (1-3 stray bytes are consumed and dropped), otherwise it stays |
| FftProcessor.FftAudioProcessor.ConvertStereoToMono | app/src/main/java/com/harrisonog/musicvisualizer/service/visualizer/FftAudioProcessor.kt:217-224 | The loop computes the channel averages of each stereo pair |
| FftProcessor.FftAudioProcessor.OnFlush | app/src/main/java/com/harrisonog/musicvisualizer/service/visualizer/FftAudioProcessor.kt:226-229 | Flushing empties the sample buffer |
| FftProcessor.FftAudioProcessor.OnReset | app/src/main/java/com/harrisonog/musicvisualizer/service/visualizer/FftAudioProcessor.kt:231-235 | Resetting empties the sample buffer and deactivates the processor |
| Songs.ClockText | app/src/main/java/com/harrisonog/musicvisualizer/domain/model/Song.kt:27-29 | The `%d:%02d` text of whole minutes and leftover seconds under truncating division; its meaning is given by `Songs.ClockTextReadsBack`, `Songs.ClockTextSameSecond` and the example lemmas |
| Songs.DurationFormatted | app/src/main/java/com/harrisonog/musicvisualizer/domain/model/Song.kt:25-30 | A song's duration text is `Songs.ClockText` of its duration, so `Songs.ClockTextReadsBack` applies to it |
| Songs.ClockTextReadsBack | app/src/main/java/com/harrisonog/musicvisualizer/domain/model/Song.kt:25-30 | For a non-negative duration the text is minutes, ':', two second digits; minutes * 60 + seconds is the whole seconds and seconds < 60 |
| Songs.ClockTextSameSecond | app/src/main/java/com/harrisonog/musicvisualizer/domain/model/Song.kt:25-30 | Two non-negative durations print the same text exactly when they fall in the same whole second |
| Songs.ClockTextUnderASecond | app/src/main/java/com/harrisonog/musicvisualizer/domain/model/Song.kt:25-30 | 0, 999 and -999 ms all print "0:00" (truncation towards zero) |
| Songs.ClockTextMinute | app/src/main/java/com/harrisonog/musicvisualizer/domain/model/Song.kt:25-30 | 59 999 ms prints "0:59" |
| Songs.ClockTextHour | app/src/main/java/com/harrisonog/musicvisualizer/domain/model/Song.kt:25-30 | An hour prints "60:00"; minutes are not split into hours |
| Songs.ClockTextNegative | app/src/main/java/com/harrisonog/musicvisualizer/domain/model/Song.kt:25-30 | -61 000 ms prints "-1:-1", as Java's `%d:%02d` does for negative fields |
| Playback.Progress | app/src/main/java/com/harrisonog/musicvisualizer/domain/model/PlaybackState.kt:22-23 | Progress is 0 for a non-positive duration and otherwise the position as a fraction of the duration |
| Playback.ProgressBounds | app/src/main/java/com/harrisonog/musicvisualizer/domain/model/PlaybackState.kt:22-23 | Within the track progress lies in [0, 1] and is 1 exactly at the end |
| Playback.ProgressNotClamped | app/src/main/java/com/harrisonog/musicvisualizer/domain/model/PlaybackState.kt:22-23 | A position past the end gives progress above 1 |
| Playback.CurrentPositionFormatted | app/src/main/java/com/harrisonog/musicvisualizer/domain/model/PlaybackState.kt:25-30 | The position text is `Songs.ClockText` of the position; read back by `Playback.FormattedTextsReadBack` |
| Playback.DurationFormatted | app/src/main/java/com/harrisonog/musicvisualizer/domain/model/PlaybackState.kt:32-37 | The duration text is `Songs.ClockText` of the duration; read back by `Playback.FormattedTextsReadBack` |
| Playback.FormattedTextsReadBack | app/src/main/java/com/harrisonog/musicvisualizer/domain/model/PlaybackState.kt:25-37 | Both position and duration texts read back as their whole seconds, so the position text never reads more than the duration text |
| Playlists.SongCount | app/src/main/java/com/harrisonog/musicvisualizer/domain/model/Playlist.kt:19 | The number of songs in the playlist, zero exactly when it is empty |
| Playlists.TotalDuration | app/src/main/java/com/harrisonog/musicvisualizer/domain/model/Playlist.kt:21 | `sumOf` the song durations; additive by `Playlists.SumDurationsAppend`, bounded by `Playlists.SumDurationsBounds` |
| Playlists.TotalDurationFormatted | app/src/main/java/com/harrisonog/musicvisualizer/domain/model/Playlist.kt:23-33 | The "h hr m min" / "m min" text; stated by `Playlists.TotalDurationText` |
| Playlists.SumDurationsAppend | app/src/main/java/com/harrisonog/musicvisualizer/domain/model/Playlist.kt:21 | The total duration of two song lists joined is the sum of their totals |
| Playlists.SumDurationsBounds | app/src/main/java/com/harrisonog/musicvisualizer/domain/model/Playlist.kt:21 | With non-negative durations the total is non-negative and at least each song's duration |
| Playlists.TotalDurationText | app/src/main/java/com/harrisonog/musicvisualizer/domain/model/Playlist.kt:23-33 | Below an hour the text is "<m> min", otherwise "<h> hr <m> min" with h the whole hours and m the whole minutes left over (0..59) |
| Playlists.TotalDurationTextExamples | app/src/main/java/com/harrisonog/musicvisualizer/domain/model/Playlist.kt:23-33 | Under a minute shows "0 min"; exactly an hour shows "1 hr 0 min" |
| SeekBar.FormatDuration | app/src/main/java/com/harrisonog/musicvisualizer/presentation/player/components/SeekBar.kt:73-78 | The seek bar's `%d:%02d` label; equal to `Songs.ClockText` by `SeekBar.FormatDurationMatchesSong` |
| SeekBar.FormatDurationMatchesSong | app/src/main/java/com/harrisonog/musicvisualizer/presentation/player/components/SeekBar.kt:73-78 | The seek bar's label equals a song's duration text for every value, so it reads back as the whole seconds |
| SeekBar.RoundToLong | app/src/main/java/com/harrisonog/musicvisualizer/presentation/player/components/SeekBar.kt:54 | `roundToLong`, halves rounded up; stated by `SeekBar.RoundToLongNearest` |
| SeekBar.RoundToLongNearest | app/src/main/java/com/harrisonog/musicvisualizer/presentation/player/components/SeekBar.kt:54 | `roundToLong` is within one half of its argument and fixes integers |
| SeekBar.SeekBarState.constructor | app/src/main/java/com/harrisonog/musicvisualizer/presentation/player/components/SeekBar.kt:30-31 | The seek bar starts not dragging, at fraction 0 |
| SeekBar.SeekBarState.SliderValue | app/src/main/java/com/harrisonog/musicvisualizer/presentation/player/components/SeekBar.kt:35 | While dragging the slider shows the drag fraction, otherwise the player's progress |
| SeekBar.SeekBarState.DisplayPosition | app/src/main/java/com/harrisonog/musicvisualizer/presentation/player/components/SeekBar.kt:53-57 | Not dragging: the player's position; dragging: the drag fraction of the duration, rounded to the nearest millisecond |
| SeekBar.SeekBarState.DisplayPositionWithinTrack | app/src/main/java/com/harrisonog/musicvisualizer/presentation/player/components/SeekBar.kt:53-57 | A drag fraction in [0, 1] shows a position within the track |
| SeekBar.SeekBarState.OnValueChange | app/src/main/java/com/harrisonog/musicvisualizer/presentation/player/components/SeekBar.kt:36-39 | Moving the thumb starts a drag at the new value |
| SeekBar.SeekBarState.OnValueChangeFinished | app/src/main/java/com/harrisonog/musicvisualizer/presentation/player/components/SeekBar.kt:40-43 | Releasing seeks to the last drag fraction and ends the drag |
| Library.IndexOf | app/src/main/java/com/harrisonog/musicvisualizer/presentation/library/LibraryViewModel.kt:108-110 | `indexOf` gives the first occurrence at or after `from`, or -1 exactly when there is none |
| Library.ContainsIsSubstring | app/src/main/java/com/harrisonog/musicvisualizer/presentation/library/LibraryViewModel.kt:108-110 | `contains` holds exactly when the query occurs in the text |
| Library.MatchesSearch | app/src/main/java/com/harrisonog/musicvisualizer/presentation/library/LibraryViewModel.kt:105-111 | The search predicate; `Library.MatchesSearchMeaning` states it as blank query or lowercase substring of title, artist or album |
| Library.MatchesSearchMeaning | app/src/main/java/com/harrisonog/musicvisualizer/presentation/library/LibraryViewModel.kt:105-111 | A song matches exactly when the query is blank or its lowercase form occurs in the lowercase title, artist or album |
| Library.FilterMatchingCounts | app/src/main/java/com/harrisonog/musicvisualizer/presentation/library/LibraryViewModel.kt:45-46 | Filtering keeps every matching song as often as it occurs and drops every other song |
| Library.CompareIgnoreCase | app/src/main/java/com/harrisonog/musicvisualizer/presentation/library/LibraryViewModel.kt:115-117 | `CASE_INSENSITIVE_ORDER` gives a sign |
| Library.CompareIgnoreCaseZero | app/src/main/java/com/harrisonog/musicvisualizer/presentation/library/LibraryViewModel.kt:115-117 | Two strings compare equal exactly when their lowercase forms are equal |
| Library.CompareIgnoreCaseAntisymmetric | app/src/main/java/com/harrisonog/musicvisualizer/presentation/library/LibraryViewModel.kt:115-117 | Swapping the arguments negates the comparison |
| Library.CompareIgnoreCaseTransitive | app/src/main/java/com/harrisonog/musicvisualizer/presentation/library/LibraryViewModel.kt:115-117 | The case-insensitive order is transitive |
| Library.Compare | app/src/main/java/com/harrisonog/musicvisualizer/presentation/library/LibraryViewModel.kt:113-120 | Each sort option's comparator gives a sign |
| Library.CompareIsTotalPreorder | app/src/main/java/com/harrisonog/musicvisualizer/presentation/library/LibraryViewModel.kt:113-120 | Each comparator is antisymmetric and transitive |
| Library.CompareZeroMeansSameKey | app/src/main/java/com/harrisonog/musicvisualizer/presentation/library/LibraryViewModel.kt:113-120 | Songs compare equal exactly when they share the sort key (lowercase title, artist or album; or duration) |
| Library.InsertCounts | app/src/main/java/com/harrisonog/musicvisualizer/presentation/library/LibraryViewModel.kt:47 | Inserting adds exactly the one song |
| Library.InsertSorted | app/src/main/java/com/harrisonog/musicvisualizer/presentation/library/LibraryViewModel.kt:47 | Inserting into a sorted list keeps it sorted |
| Library.InsertSameKey | app/src/main/java/com/harrisonog/musicvisualizer/presentation/library/LibraryViewModel.kt:47 | Insertion is stable: songs with equal keys stay in their original order |
| Library.Sort | app/src/main/java/com/harrisonog/musicvisualizer/presentation/library/LibraryViewModel.kt:47 | `sortedWith` as stable insertion sort; `Library.SortCorrect` proves it sorted, a permutation and stable |
| Library.SortCorrect | app/src/main/java/com/harrisonog/musicvisualizer/presentation/library/LibraryViewModel.kt:47 | `sortedWith` returns a sorted permutation of its input that keeps songs of equal key in their original order (stable) |
| Library.Combine | app/src/main/java/com/harrisonog/musicvisualizer/presentation/library/LibraryViewModel.kt:39-54 | The `combine` of songs, query, sort option and loading flag into the screen state; stated by `Library.CombineCorrect` |
| Library.CombineCorrect | app/src/main/java/com/harrisonog/musicvisualizer/presentation/library/LibraryViewModel.kt:39-59 | The screen shows exactly the matching songs, sorted and stable, with the query and option echoed; it is loading only while the flag is set and the library is empty |
| Library.IndexOfSong | app/src/main/java/com/harrisonog/musicvisualizer/presentation/library/LibraryViewModel.kt:86 | `indexOf` gives the first position of the song, or -1 exactly when absent |
| Library.PlaySong | app/src/main/java/com/harrisonog/musicvisualizer/presentation/library/LibraryViewModel.kt:84-92 | A listed song plays the whole list from its first position; any other song is played alone |
| Library.PlayAll | app/src/main/java/com/harrisonog/musicvisualizer/presentation/library/LibraryViewModel.kt:94-99 | An empty list sends nothing; otherwise the whole list is played from `startIndex` |
| Library.LibraryViewModel.constructor | app/src/main/java/com/harrisonog/musicvisualizer/presentation/library/LibraryViewModel.kt:35-37 | A new screen has no query, title order and the loading flag raised |
| Library.LibraryViewModel.SetSearchQuery | app/src/main/java/com/harrisonog/musicvisualizer/presentation/library/LibraryViewModel.kt:76-78 | Only the query changes |
| Library.LibraryViewModel.SetSortOption | app/src/main/java/com/harrisonog/musicvisualizer/presentation/library/LibraryViewModel.kt:80-82 | Only the sort option changes |
| Library.LibraryViewModel.RefreshLibrary | app/src/main/java/com/harrisonog/musicvisualizer/presentation/library/LibraryViewModel.kt:65-74 | Loading is raised then lowered whether or not the refresh fails, and a failure is passed on |
| MediaItems.ToMediaItem | app/src/main/java/com/harrisonog/musicvisualizer/service/player/MediaItemMapper.kt:10-23 | The media item of a song: decimal id, content URI and metadata; inverted by `MediaItems.MediaItemRoundTrip` |
| MediaItems.ToMediaItems | app/src/main/java/com/harrisonog/musicvisualizer/service/player/MediaItemMapper.kt:25 | One media item per song, in order |
| MediaItems.ToSongWithDuration | app/src/main/java/com/harrisonog/musicvisualizer/service/player/MediaItemMapper.kt:42-55 | A song comes back exactly when the media id parses as a Long; it has that id and the given duration |
| MediaItems.MediaItemRoundTrip | app/src/main/java/com/harrisonog/musicvisualizer/service/player/MediaItemMapper.kt:10-55 | Converting a song to a media item and back gives the same song with the supplied duration |
| MediaItems.NonNumericIdHasNoSong | app/src/main/java/com/harrisonog/musicvisualizer/service/player/MediaItemMapper.kt:43 | A media id that is empty or starts with neither a sign nor an ASCII digit gives no song |
| ServiceConnection.RepeatToPlayer | app/src/main/java/com/harrisonog/musicvisualizer/service/MusicServiceConnection.kt:198-204 | The Player constant for a repeat mode; inverted by `ServiceConnection.RepeatFromPlayer` (`ServiceConnection.RepeatModeRoundTrip`) |
| ServiceConnection.RepeatFromPlayer | app/src/main/java/com/harrisonog/musicvisualizer/service/MusicServiceConnection.kt:233-238 | The repeat mode for a Player constant, unknown values as OFF; stated by `ServiceConnection.RepeatModeRoundTrip` |
| ServiceConnection.RepeatModeRoundTrip | app/src/main/java/com/harrisonog/musicvisualizer/service/MusicServiceConnection.kt:198-238 | Mapping a repeat mode to the player's constant and back is the identity; the mapping is injective onto OFF/ONE/ALL |
| ServiceConnection.NextRepeatMode | app/src/main/java/com/harrisonog/musicvisualizer/service/MusicServiceConnection.kt:206-214 | The next repeat constant; stated by `ServiceConnection.RepeatCycle` |
| ServiceConnection.RepeatCycle | app/src/main/java/com/harrisonog/musicvisualizer/service/MusicServiceConnection.kt:206-214 | Cycling goes OFF to ALL to ONE to OFF, three cycles return to the start, and an unknown value resets to OFF |
| ServiceConnection.SkipPreviousCall | app/src/main/java/com/harrisonog/musicvisualizer/service/MusicServiceConnection.kt:175-186 | Skip previous goes to the previous item exactly when within the first 3 seconds and one exists; otherwise it restarts the track |
| ServiceConnection.KnownDuration | app/src/main/java/com/harrisonog/musicvisualizer/service/MusicServiceConnection.kt:244 | The published duration is the player's when non-negative, else 0 |
| ServiceConnection.PlaybackStateOf | app/src/main/java/com/harrisonog/musicvisualizer/service/MusicServiceConnection.kt:231-250 | The published state has the player's known duration and mapped repeat constant, is buffering exactly in STATE_BUFFERING, and keeps the current song |
| ServiceConnection.SetRepeatModeIsPublished | app/src/main/java/com/harrisonog/musicvisualizer/service/MusicServiceConnection.kt:198-250 | After setting a repeat mode the next published state shows that mode |
| ServiceConnection.QueueOf | app/src/main/java/com/harrisonog/musicvisualizer/service/MusicServiceConnection.kt:266-274 | The published queue for the player's items; stated by `ServiceConnection.QueueOfShape`, `ServiceConnection.QueueOfParsed` and `ServiceConnection.QueueOfSongs` |
| ServiceConnection.QueueOfShape | app/src/main/java/com/harrisonog/musicvisualizer/service/MusicServiceConnection.kt:266-274 | The queue has at most one song per item, each with duration 0 and a Long id; with all ids numeric, exactly one per item |
| ServiceConnection.QueueOfParsed | app/src/main/java/com/harrisonog/musicvisualizer/service/MusicServiceConnection.kt:266-274 | When every item converts, the queue is the converted items in order |
| ServiceConnection.QueueOfSongs | app/src/main/java/com/harrisonog/musicvisualizer/service/MusicServiceConnection.kt:125-274 | Queueing songs and reading the queue back gives the same songs, with duration 0 |
| ServiceConnection.Moved | app/src/main/java/com/harrisonog/musicvisualizer/service/MusicServiceConnection.kt:226-229 | Moving keeps the items as a permutation, puts the moved item at the target (at most the last position) and keeps the other items in their order |
| ServiceConnection.MusicServiceConnection.constructor | app/src/main/java/com/harrisonog/musicvisualizer/service/MusicServiceConnection.kt:45-54 | Starts disconnected with the default state, no song, an empty queue and no position updates |
| ServiceConnection.MusicServiceConnection.IsConnected | app/src/main/java/com/harrisonog/musicvisualizer/service/MusicServiceConnection.kt:291-292 | True exactly when a controller is held; disconnected means no next and no previous track |
| ServiceConnection.MusicServiceConnection.HasNextTrack | app/src/main/java/com/harrisonog/musicvisualizer/service/MusicServiceConnection.kt:294-295 | True exactly when connected and the player has a next item |
| ServiceConnection.MusicServiceConnection.HasPreviousTrack | app/src/main/java/com/harrisonog/musicvisualizer/service/MusicServiceConnection.kt:297-298 | True exactly when connected and the player has a previous item |
| ServiceConnection.MusicServiceConnection.Connect | app/src/main/java/com/harrisonog/musicvisualizer/service/MusicServiceConnection.kt:88-107 | Connecting while disconnected starts building a controller; while connected it does nothing |
| ServiceConnection.MusicServiceConnection.OnControllerReady | app/src/main/java/com/harrisonog/musicvisualizer/service/MusicServiceConnection.kt:96-106 | When the controller is ready it is stored; the state is published from it first (with the old song), then the song and its duration, then the queue |
| ServiceConnection.MusicServiceConnection.Disconnect | app/src/main/java/com/harrisonog/musicvisualizer/service/MusicServiceConnection.kt:109-115 | Position updates stop, the controller and pending connection are dropped; published values are kept |
| ServiceConnection.MusicServiceConnection.OnPlayerEvent | app/src/main/java/com/harrisonog/musicvisualizer/service/MusicServiceConnection.kt:56-86 | Each listener callback republishes what it names: a transition the song and state, metadata the song, the rest the state; is-playing starts or stops position updates |
| ServiceConnection.MusicServiceConnection.Play | app/src/main/java/com/harrisonog/musicvisualizer/service/MusicServiceConnection.kt:117-123 | When connected, the player holds just this song and gets set-item, prepare and play; otherwise nothing |
| ServiceConnection.MusicServiceConnection.PlayAll | app/src/main/java/com/harrisonog/musicvisualizer/service/MusicServiceConnection.kt:125-132 | When connected, the player holds the songs, starts at `startIndex` from position 0, is prepared and played; the queue is republished |
| ServiceConnection.MusicServiceConnection.AddToQueue | app/src/main/java/com/harrisonog/musicvisualizer/service/MusicServiceConnection.kt:134-137 | When connected the song is appended to the player's items; the queue is republished |
| ServiceConnection.MusicServiceConnection.AddAllToQueue | app/src/main/java/com/harrisonog/musicvisualizer/service/MusicServiceConnection.kt:139-142 | When connected the songs are appended in order; the queue is republished |
| ServiceConnection.MusicServiceConnection.Pause | app/src/main/java/com/harrisonog/musicvisualizer/service/MusicServiceConnection.kt:144-146 | When connected the player is paused; nothing else changes |
| ServiceConnection.MusicServiceConnection.Resume | app/src/main/java/com/harrisonog/musicvisualizer/service/MusicServiceConnection.kt:148-150 | When connected the player is played; nothing else changes |
| ServiceConnection.MusicServiceConnection.TogglePlayPause | app/src/main/java/com/harrisonog/musicvisualizer/service/MusicServiceConnection.kt:152-160 | When connected, a playing player is paused and a paused one played |
| ServiceConnection.MusicServiceConnection.SeekTo | app/src/main/java/com/harrisonog/musicvisualizer/service/MusicServiceConnection.kt:162-165 | When connected the player gets one seek call and the published state is rebuilt from the player |
| ServiceConnection.MusicServiceConnection.SkipNext | app/src/main/java/com/harrisonog/musicvisualizer/service/MusicServiceConnection.kt:167-173 | When connected the player skips to the next item exactly when one exists |
| ServiceConnection.MusicServiceConnection.SkipPrevious | app/src/main/java/com/harrisonog/musicvisualizer/service/MusicServiceConnection.kt:175-186 | When connected the player gets the skip-previous call chosen by position and previous item |
| ServiceConnection.MusicServiceConnection.SetShuffleMode | app/src/main/java/com/harrisonog/musicvisualizer/service/MusicServiceConnection.kt:188-190 | When connected the player's shuffle flag is set |
| ServiceConnection.MusicServiceConnection.ToggleShuffle | app/src/main/java/com/harrisonog/musicvisualizer/service/MusicServiceConnection.kt:192-196 | When connected the player's shuffle flag is negated |
| ServiceConnection.MusicServiceConnection.SetRepeatMode | app/src/main/java/com/harrisonog/musicvisualizer/service/MusicServiceConnection.kt:198-204 | When connected the player gets the repeat constant of the mode |
| ServiceConnection.MusicServiceConnection.CycleRepeatMode | app/src/main/java/com/harrisonog/musicvisualizer/service/MusicServiceConnection.kt:206-214 | When connected the player's repeat constant moves to the next in the cycle |
| ServiceConnection.MusicServiceConnection.ClearQueue | app/src/main/java/com/harrisonog/musicvisualizer/service/MusicServiceConnection.kt:216-219 | When connected the player's items and the queue become empty |
| ServiceConnection.MusicServiceConnection.RemoveFromQueue | app/src/main/java/com/harrisonog/musicvisualizer/service/MusicServiceConnection.kt:221-224 | When connected and the index is valid the item is removed; the queue is republished |
| ServiceConnection.MusicServiceConnection.MoveQueueItem | app/src/main/java/com/harrisonog/musicvisualizer/service/MusicServiceConnection.kt:226-229 | When connected and the indexes are valid the item is moved; the queue is republished |
| ServiceConnection.MusicServiceConnection.UpdatePlaybackState | app/src/main/java/com/harrisonog/musicvisualizer/service/MusicServiceConnection.kt:231-250 | When connected the published state is rebuilt from the player, keeping the current song |
| ServiceConnection.MusicServiceConnection.UpdateCurrentSong | app/src/main/java/com/harrisonog/musicvisualizer/service/MusicServiceConnection.kt:252-264 | When connected the current song is read from the player with its known duration, and the state's song and duration follow |
| ServiceConnection.MusicServiceConnection.UpdateQueue | app/src/main/java/com/harrisonog/musicvisualizer/service/MusicServiceConnection.kt:266-274 | When connected the queue is rebuilt from the player's items |

## Left out

- Floating point: `Float` and `Double` are exact reals. Rounding, NaN and infinity are not modelled, apart from the finiteness test that `processFrame` applies to samples and magnitudes, which is a parameter. `rms` is not checked for NaN, as in the code.
- Engine.DownsampleMagnitudes: bin edges are `i * n / t` in integer arithmetic. The code computes them as `(i * binSize).toInt()` with a float `binSize`, which can differ by one near exact multiples because of rounding.
- Frames.EqualsImpliesEqualHash: holds only because floats are reals. In the app, `rms != other.rms` is IEEE comparison, so rms 0.0f and -0.0f frames are equal while `Float.hashCode` (the float's bit pattern) tells them apart, breaking the equals/hashCode contract. A frame whose rms is NaN is equal only to itself (by identity), since NaN compares unequal to every value.
- SeekBar.RoundToLong: a NaN drag position, for which Kotlin's `roundToLong` throws `IllegalArgumentException`, and saturation at the Long bounds are not modelled.
- FftProcessor.Numerics: the FFT, `sqrt`, `cos`, `log10` and float decoding are JTransforms and `kotlin.math` code, which is not part of this model. Only the length of the FFT output and the sign of `sqrt` are assumed. The Hann window's symmetry is proved only for a cosine that is assumed symmetric.
- FftProcessor.Int16At: byte order is fixed to little-endian (the order Media3 delivers). `ByteBuffer.order()` and `asShortBuffer`/`asFloatBuffer` views are not modelled.
- Coroutines and flows are not modelled: `SharedFlow`, `StateFlow`, `stateIn`, `combine`, `viewModelScope` and the DROP_OLDEST replay buffer. Emitted frames are the ghost sequence of everything `tryEmit` was given. The `runningFold` is a left fold over that sequence (`Engine.SmoothedFrame`). `combine` is the function `Library.Combine`, applied to the current field values.
- The once-a-second (`delay(1000)`) position-update job (`startPositionUpdates`, `stopPositionUpdates`) is only the flag `positionUpdatesActive`. Its timer loop and delays are I/O.
- `try`/`catch`, `Log` and the exceptions thrown by `require` are left out. The requires of `Read`/`Advance` (`count <= size`) are the checks `require` makes, so the exception path is not reachable in the model. A negative `count` is excluded by the `nat` type.
- RingBuffer.CircularFloatBuffer.constructor: a capacity of 0 is excluded. The code would fail with a division by zero on the first write. The processor always uses 8192.
- The Media3 `MediaController` is a record. Its state is the fields the connection reads. The commands it receives are an append-only log. The player's own reaction to them, such as a seek moving the position, is not modelled. The asynchronous `buildAsync` is split into `Connect` and `OnControllerReady`, and the listener into `OnPlayerEvent`.
- ServiceConnection.MusicServiceConnection.RemoveFromQueue: a negative index leaves the items unchanged, but Media3's player rejects it with an exception. An index past the end is ignored, as in Media3.
- ServiceConnection.MusicServiceConnection.MoveQueueItem: a negative index leaves the items unchanged, but Media3 rejects it with an exception. A source index past the end is ignored, and a target past the end is capped to the last position, as in Media3.
- Long overflow in `sumOf` (playlist totals), in `Long` arithmetic and in `(dragProgress * duration)` is not modelled: integers are unbounded. Only `hashCode` and `Long.hashCode` model 32-bit wrap-around (`Frames.Int32`).
- Decimal.ParseLong: only ASCII digits are accepted. Kotlin's `toLongOrNull` reads digits with `Character.digit`, which also accepts other Unicode decimal digits, so a media id such as "١٢" (U+0661 U+0662) gives the id 12 in the app but no song in the model (`MediaItems.NonNumericIdHasNoSong` holds only for the ASCII model).
- Case folding and whitespace are ASCII-only (`Library.Lower`, `Library.IsWhitespace`). Kotlin's `lowercase()` and `isBlank()` are full Unicode. The `String.format` locale is assumed to print ASCII digits.
- `MediaItem.toSong()` (service/player/MediaItemMapper.kt:27-40) is `ToSongWithDuration(item, 0)` and has no member of its own. The metadata defaults ("Unknown", "Unknown Artist", "Unknown Album") are kept in `ToSongWithDuration`.
- Library.AddToQueue: delegates directly to the connection and has no contract of its own; its effect is `ServiceConnection.MusicServiceConnection.AddToQueue`.
- Library.LibraryViewModel.UiState: reads the fields into `Library.Combine` and has no contract of its own; `Library.CombineCorrect` states the screen state.
- The renderers' drawing code, the Compose screens, Room, the repository, the media-store scan, `MusicService` and dependency injection are not part of this model.

Behaviours of the code that a reader might not expect, and which the model keeps:

- Audio with one channel, or more than two, is not downmixed. Its samples go into the ring buffer interleaved.
- `convertPcm16ToFloat` and `convertPcmFloatToFloat` decode only whole samples but move the position to the limit, so a trailing odd byte, or 1–3 trailing float bytes, is consumed and dropped. Only a buffer shorter than one sample stays unread (`FftProcessor.DecodedPosition`).
- Bin 1023 is the Nyquist magnitude `|out[1]|`. The FFT outputs 2046 and 2047 are never read (`FftProcessor.LastPairNeverRead`).
- The library's loading flag shows only while the whole library is empty, not the filtered list (`Library.CombineCorrect`).
- Progress is not clamped. A position past the duration gives more than 1 (`Playback.ProgressNotClamped`).
- Negative durations print with a minus sign in both fields, for example "-1:-1" (`Songs.ClockTextNegative`).
