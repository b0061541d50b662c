# waveform_analyzer — a Dafny model of the transcription page's logic

waveform_analyzer is a browser tool for transcribing music by ear. The page shows:

- a waveform timeline, where the user zooms, seeks, drags a seeker and places note markers;
- three spectrum views, drawn over a piano-key frequency axis;
- a piano roll that plays notes;
- a transport bar.

This project models the computations those components are built from, and proves what they promise. The model covers:

- the min/max envelope of channel 0 (300 columns, and the 500-column five-second variant);
- the timeline's time↔pixel maps, zoom, drag bounds, grid ticks, timestamps and marker list;
- spectral frame selection, the Gaussian blur, bin→point generation with its finite-pair filter, and the key-axis grid;
- the piano roll's note names, black keys, key widths, zoom and press-and-drag note player;
- the transport bar's time display, volume icon, file label and play/loop/volume/speed handlers;
- the application store and the song loading of the transcription page.

Modules and files:

| module | file | what it models |
|---|---|---|
| `Optional` | `optional.dfy` | the option type |
| `Numbers` | `numbers.dfy` | JavaScript numbers |
| `Text` | `text.dfy` | string rendering and parsing |
| `Envelope` | `envelope.dfy` | the min/max envelope |
| `Store` | `store.dfy` | the application store |
| `Audio` | `audio.dfy` | the audio element |
| `WaveForm` | `waveform.dfy` | the timeline |
| `KeyAxis` | `keyaxis.dfy` | the frequency axis |
| `Spectral` | `spectral.dfy` | what the spectrum views share |
| `FrequencyGraph` | `frequencygraph.dfy` | the spectrogram view |
| `TestFft` | `testfft.dfy` | the experimental spectrum view |
| `FftGraph` | `fftgraph.dfy` | the live spectrum view |
| `FirstSeconds` | `mightuse.dfy` | the five-second loader |
| `PianoRoll` | `pianoroll.dfy` | the piano roll |
| `Controls` | `controls.dfy` | the transport bar |
| `Transcription` | `transcription.dfy` | the transcription page |

The model follows these conventions:

- **Numbers.** A JavaScript number is `Numbers.Num`: a finite real, `PosInf`, `NegInf` or `NaN`. Arithmetic and `Math.max`/`Math.min` follow the IEEE rules for those special values, so the code's `isFinite` filters can be stated exactly.
- **log2 and exp.** `Math.log2` and `Math.exp` are parameters of subset types that carry only the laws the code relies on:
  - `log2(1) = 0`, and log2 is strictly increasing on the positive reals;
  - `exp(0) = 1`, and exp is positive.
- **Component state.** Each component's state is a class whose methods update it in place:
  - `WaveForm.WaveformView`
  - `FrequencyGraph.FrequencyGraphView`
  - `TestFft.TestFftView`
  - `PianoRoll.PianoRollView`
  - `Controls.ControlsView`
  - `Transcription.TranscriptionPage`
  - `Store.AppStore`
  - `Audio.AudioElement`
- **Loops.** The source's loops are methods with loop invariants, proved against specification functions:
  - `Envelope.Reduce`
  - `FrequencyGraph.GaussianBlur`
  - `Spectral.FilterFinite`
  - `FftGraph.DrawFrequencyData`
  - `KeyAxis.RenderLabels`
  - `WaveForm.RenderGrid`
  - `PianoRoll.GenerateNotes`

## Model

| member | source | states |
|---|---|---|
| Numbers.Add | src/components/frequencyGraph.tsx:128 | a sum is finite exactly when both operands are finite |
| Numbers.Sub | src/components/frequencyGraph.tsx:128 | a difference is finite exactly when both operands are finite |
| Numbers.Mul | src/components/frequencyGraph.tsx:126 | a product is finite exactly when both factors are finite |
| Numbers.Div | src/components/frequencyGraph.tsx:124 | a quotient is finite exactly when the dividend is finite and the divisor is a non-zero finite number or an infinity |
| Numbers.Pow2 | src/components/frequencyGraph.tsx:125 | `Math.pow(a, 2)` is finite exactly when a is |
| Numbers.MaxOfFinite | src/components/waveForm.tsx:125 | `Math.max` of a non-empty list of finite samples is one of them and at least every one of them |
| Numbers.MinOfFinite | src/components/waveForm.tsx:124 | `Math.min` of a non-empty list of finite samples is one of them and at most every one of them |
| Numbers.MaxOfNaN | src/components/testFFT.tsx:65 | one NaN element makes `Math.max(...s)` NaN |
| Numbers.MaxOfPosInf | src/components/FFTGraph.tsx:94 | a +Infinity element makes `Math.max(...s)` +Infinity or NaN |
| Numbers.Log2Increasing | src/components/frequencyGraph.tsx:83 | log2 is strictly increasing on the positive reals |
| Numbers.ExpPositive | src/components/frequencyGraph.tsx:92 | every kernel weight `exp(...)` is positive |
| Numbers.Ceil | src/components/waveForm.tsx:118 | `Math.ceil(x)` is the least integer not below x |
| Numbers.FloorBy60 | src/components/controls.tsx:43-48 | for t >= 0, `floor(t / 60)` and `floor(t % 60)` are the minutes and leftover seconds of the whole seconds of t |
| Numbers.FloorBy3600 | src/components/waveForm.tsx:530-531 | for t >= 0, `floor(t / 3600)` and `floor(t % 3600)` are the hours and leftover seconds of the whole seconds of t |
| Text.NatToString | src/components/waveForm.tsx:533 | `String(n)` is a non-empty string of digits |
| Text.ParseNatToString | src/components/waveForm.tsx:533 | parsing `String(n)` gives n back |
| Text.NatToStringInjective | src/components/pianoRoll.tsx:21 | distinct numbers render differently |
| Text.Pad2Parses | src/components/controls.tsx:44-48 | `String(n).padStart(2, "0")` is at least two digits and exactly two below 100; it reads back as n, so it is never truncated |
| Text.JoinSplit | src/components/Transcription.tsx:56-57 | joining the pieces of a split on the same character restores the string |
| Text.SplitFirst | src/components/Transcription.tsx:56 | splitting at a first separator gives the piece before it, then the split of the rest |
| Text.ReadClock2 | src/components/controls.tsx:49 | an `a:b` display of digit fields reads back as 60a + b seconds |
| Text.ReadClock3 | src/components/waveForm.tsx:534 | an `a:b:c` display of digit fields reads back as 3600a + 60b + c seconds |
| Envelope.ChunkSize | src/components/waveForm.tsx:118 | `ceil(length / count)`: count chunks of that size cover the samples, and one fewer sample per chunk would not |
| Envelope.Chunk | src/components/waveForm.tsx:123 | `slice(i * size, (i + 1) * size)` holds the samples between the clamped bounds |
| Envelope.EnvelopeOf | src/components/waveForm.tsx:120-127 | the envelope has exactly one entry per chunk, whatever the sample count |
| Envelope.Reduce | src/components/waveForm.tsx:120-127 | the chunk loop builds the envelope of the whole array |
| Envelope.ChunkIndex | src/components/waveForm.tsx:123 | sample j lies in the size-wide chunk i exactly when i = j / size |
| Envelope.ChunksPartition | src/components/waveForm.tsx:118-123 | the chunks are disjoint and together cover every sample: the first starts at 0, each ends where the next starts, the last ends at the length, and sample j lies in chunk j / size only |
| Envelope.ChunkEmpty | src/components/waveForm.tsx:123 | a chunk is empty exactly when it starts at or after the end of the samples |
| Envelope.SummaryExtremes | src/components/waveForm.tsx:124-126 | a non-empty chunk's min and max are finite elements of the chunk bounding all of it (so min <= max); an empty chunk gives +Infinity / -Infinity |
| Envelope.EnvelopeEntry | src/components/waveForm.tsx:122-127 | entry i is +Infinity / -Infinity exactly when chunk i is empty, and otherwise bounds every sample of chunk i |
| FirstSeconds.PrefixLength | src/lib/mightuse.ts:12-17 | `slice(0, sampleRate * 5)` keeps the whole channel exactly when it lasts at most five seconds, and otherwise the samples below five seconds |
| FirstSeconds.LoadPreview | src/lib/mightuse.ts:1-36 | without a file nothing is produced; with one, the envelope of the first five seconds in 500 chunks |
| FirstSeconds.PreviewShape | src/lib/mightuse.ts:19-32 | the preview has 500 entries, a track of at most five seconds is reduced whole, and its chunks partition the kept samples |
| Store.AppStore.constructor | src/lib/store.ts:11-13 | the store starts with no song and `visibleKeys` = 2.3263 |
| Store.AppStore.SetSongFile | src/lib/store.ts:12 | replaces the song (clearing is allowed) and nothing else |
| Store.AppStore.SetVisibleKeys | src/lib/store.ts:14 | stores the zoom as given, without clamping, and nothing else |
| Audio.AudioElement.constructor | src/components/Transcription.tsx:18 | a new element is paused at 0 with no source and a NaN duration |
| Audio.AudioElement.Seek | src/components/waveForm.tsx:315 | assigning a finite time moves the position; a non-finite one is refused |
| Audio.AudioElement.Play | src/components/controls.tsx:75 | the element is playing; nothing else changes |
| Audio.AudioElement.Pause | src/components/controls.tsx:73 | the element is paused; nothing else changes |
| Audio.AudioElement.Load | src/components/waveForm.tsx:58-59 | assigning a source and loading it leaves the element paused at 0 with an unknown (NaN) duration and the default speed 1, holding the new file; loop and volume are kept |
| WaveForm.ZoomStep | src/components/waveForm.tsx:202-207 | the wheel zoom always lies in [0.5, 4]: it is old zoom ÷ 1.05 (wheel down) or × 1.05 (wheel up) when that is in range, exactly 0.5 when that falls below 0.5, and exactly 4 when it rises above 4 |
| WaveForm.ZoomStepDirection | src/components/waveForm.tsx:205-207 | from a zoom in range, zooming out never enlarges it and zooming in never shrinks it; unclamped steps are exact ÷1.05 and ×1.05 |
| WaveForm.SeekerX | src/components/waveForm.tsx:226-231 | the seeker sits at `t / duration * width * zoom`, and at 0 when the duration is 0 (the non-finite result) |
| WaveForm.ClickTime | src/components/waveForm.tsx:311-313 | a click at x asks for `x / (width * zoom) * duration`, and a non-finite time on a zero-width timeline |
| WaveForm.ClickInvertsSeeker | src/components/waveForm.tsx:311-313 | clicking where the seeker is drawn for time t seeks exactly to t |
| WaveForm.SeekerInvertsClick | src/components/waveForm.tsx:226-227 | seeking by a click at x draws the seeker back at x |
| WaveForm.SeekerOnTimeline | src/components/waveForm.tsx:226-227 | a playback time inside the song puts the seeker between the timeline's start and its scaled end |
| WaveForm.DragX | src/components/waveForm.tsx:358-360 | the dragged x is never negative and never past width * zoom: unchanged inside [0, width * zoom], exactly 0 left of the timeline (or on a negative width), exactly width * zoom past its end |
| WaveForm.DragTimeInRange | src/components/waveForm.tsx:370-373 | on a timeline of positive width a drag anywhere asks for a time in [0, duration]; on a zero-width one the time is NaN |
| WaveForm.DragBound | src/components/waveForm.tsx:133-141 | the stage's x is unchanged up to 18 and exactly 18 beyond it; y is pinned to 0 |
| WaveForm.DragBoundIdempotent | src/components/waveForm.tsx:133-141 | applying the bound again changes nothing |
| WaveForm.MarkerAtSeeker | src/components/waveForm.tsx:453 | with the element's duration equal to the song's, a marker is drawn where the seeker was for its timestamp; before the metadata loads its x is NaN |
| WaveForm.WithoutPosition | src/components/waveForm.tsx:81 | the kept markers are exactly those at another position |
| WaveForm.WithoutPositionAppend | src/components/waveForm.tsx:81 | removal distributes over concatenation, so the kept markers stay in order |
| WaveForm.WithoutPositionIdempotent | src/components/waveForm.tsx:81 | removing a position twice is removing it once |
| WaveForm.WithoutPositionAbsent | src/components/waveForm.tsx:81 | removing a position no marker has changes nothing |
| WaveForm.FindPosition | src/components/waveForm.tsx:552 | `findIndex` gives the first marker at the position, or none when no marker is there |
| WaveForm.SaveReplacesFirst | src/components/waveForm.tsx:551-557 | saving keeps the length and every position, replaces only the first marker at the edited position, and changes nothing without a match |
| WaveForm.EditThenSave | src/components/waveForm.tsx:506-557 | editing the notes of the first marker at a position and saving updates that marker's notes only |
| WaveForm.Emphasis | src/components/waveForm.tsx:149-155 | the label interval is 5, 10 or 30 seconds, a positive multiple of 5 |
| WaveForm.RenderGrid | src/components/waveForm.tsx:143-199 | no ticks for a duration <= 0; otherwise one tick per whole second 0 .. floor(duration), in order |
| WaveForm.GridLabelReadsBack | src/components/waveForm.tsx:160-162 | a grid label reads back as its second |
| WaveForm.GridTickShape | src/components/waveForm.tsx:158-183 | tick i is long (25) exactly on multiples of 5; it is labelled exactly on multiples of the emphasis, and every labelled tick is long |
| WaveForm.GridTickPositions | src/components/waveForm.tsx:159 | the ticks lie within [0, width], strictly left to right |
| WaveForm.TimestampFields | src/components/waveForm.tsx:529-532 | hours, minutes and seconds are the whole seconds split base 3600/60, each of the last two below 60 |
| WaveForm.TimestampReadsBack | src/components/waveForm.tsx:529-534 | the popover's `h:mm:ss` / `mm:ss` text reads back as the whole seconds of the timestamp |
| WaveForm.WaveformView.constructor | src/components/waveForm.tsx:28-32 | zoom 0.985, no song, no markers, nothing selected |
| WaveForm.WaveformView.HandleFileChange | src/components/waveForm.tsx:56-68 | the element loads the file (paused, rewound to 0, duration unknown, speed 1); once decoded, the envelope is the 300-column reduction of channel 0, the duration is the decoded one and the markers are cleared; a failed decode keeps the old envelope, duration and markers |
| WaveForm.WaveformView.HandleZoom | src/components/waveForm.tsx:200-217 | the zoom takes one wheel step and stays in [0.5, 4]; nothing else changes |
| WaveForm.WaveformView.Sync | src/components/waveForm.tsx:221-234 | with a measured width the seeker moves to the playback position's x, and while playback is inside the song that x is on the timeline [0, width * zoom]; with no width it stays; the zoom stays in range |
| WaveForm.WaveformView.Click | src/components/waveForm.tsx:304-319 | a click seeks to the click's time, or leaves the position when that time is not finite; on a measured timeline the next sync draws the seeker exactly at the click |
| WaveForm.WaveformView.DragMove | src/components/waveForm.tsx:356-374 | the seeker is clamped to the timeline and playback moves to the matching time, which on a measured timeline always lies in [0, duration]; the zoom stays in range |
| WaveForm.WaveformView.DoubleClick | src/components/waveForm.tsx:382-386 | a double click rewinds to 0 |
| WaveForm.WaveformView.AddMarker | src/components/waveForm.tsx:71-78 | exactly one marker is appended, at the seeker with empty notes and the current time; earlier markers are unchanged |
| WaveForm.WaveformView.RemoveMarker | src/components/waveForm.tsx:80-85 | every marker at the target's position goes, the rest keep their order, and the popover closes |
| WaveForm.WaveformView.MarkerClick | src/components/waveForm.tsx:41-54 | the marker is selected, and the popover opens once its button is mounted |
| WaveForm.WaveformView.EditNotes | src/components/waveForm.tsx:506-513 | typing edits the selected copy's notes only, not the list |
| WaveForm.WaveformView.Cancel | src/components/waveForm.tsx:541-548 | the popover closes and the edit is dropped; the list is unchanged |
| WaveForm.WaveformView.Save | src/components/waveForm.tsx:549-561 | with a selection, the first marker at its position is replaced and the popover closes; without one nothing changes |
| KeyAxis.OctaveSpanPositive | src/components/frequencyGraph.tsx:83 | `log2(C7 / C1)` is positive, so the map never divides by 0 |
| KeyAxis.MapFrequencyToX | src/components/frequencyGraph.tsx:81-84 | the axis position is finite exactly for a positive finite frequency, and then equals the log-scale position |
| KeyAxis.KeyX | src/components/frequencyGraph.tsx:119 | the drawn x adds half a key column to the axis position, under the same finiteness condition |
| KeyAxis.FrequencyXEnds | src/components/frequencyGraph.tsx:83 | C1 maps to 0 and C7 to `width - width / 43` |
| KeyAxis.FrequencyXIncreasing | src/components/frequencyGraph.tsx:83 | on a visible axis a higher frequency is drawn further right |
| KeyAxis.OctaveXIncreasing | src/components/frequencyGraph.tsx:168-171 | the key-axis position grows strictly with the frequency |
| KeyAxis.RenderLabels | src/components/frequencyGraph.tsx:145-176 | 43 solid lines at key centres, 43 dashed at key boundaries, then 7 thick lines at the C's, in that order |
| KeyAxis.GridLinesLayout | src/components/frequencyGraph.tsx:155-165 | the solid lines run left to right inside (0, width), and each dashed line sits midway between two solid ones |
| KeyAxis.OctaveLinesIncreasing | src/components/frequencyGraph.tsx:167-173 | the octave lines run left to right |
| Spectral.FrameIndexWindow | src/components/frequencyGraph.tsx:69 | the frame shown at time t is the one whose hop window contains t, and later times never show earlier frames |
| Spectral.SelectFrame | src/components/frequencyGraph.tsx:67-71 | a frame is drawn exactly when the matrix is non-empty and the index is below the first row's length; entry k is row k's cell at that index |
| Spectral.SelectFrameFull | src/components/frequencyGraph.tsx:67-71 | with equally long rows, every in-range time selects real cells |
| Spectral.FlattenAppend | src/components/frequencyGraph.tsx:115 | flattening distributes over concatenation |
| Spectral.FlattenSorted | src/components/FFTGraph.tsx:96-121 | points present in bin order by increasing x flatten to strictly increasing xs |
| Spectral.FilterFinite | src/components/frequencyGraph.tsx:133-140 | the stride-2 loop keeps exactly the pairs whose two numbers are finite |
| Spectral.KeepFiniteFromStep | src/components/frequencyGraph.tsx:134-139 | one step of the filter: the pair at i, if finite, followed by the filter from i + 2 |
| Spectral.KeepFiniteShift | src/components/frequencyGraph.tsx:134 | filtering from an index ignores what precedes it |
| Spectral.KeepFiniteFlat | src/components/frequencyGraph.tsx:115-140 | filtering the flattened pairs keeps exactly the finite points, so the output has even length |
| Spectral.YCoordinate | src/components/frequencyGraph.tsx:124-128 | the height is finite exactly when the amplitude and a non-zero peak are finite, and then is the exaggerated height |
| Spectral.FrameCandidateShape | src/components/frequencyGraph.tsx:115-140 | bin k is drawn exactly when k > 0, its amplitude is finite and the peak finite and non-zero; then at its key-axis x and exaggerated y |
| Spectral.BinFrequencyIncreasing | src/components/frequencyGraph.tsx:116 | bin frequencies grow strictly with the bin index |
| Spectral.FrameCandidatesOrdered | src/components/frequencyGraph.tsx:115-131 | on a visible axis, drawn bins lie strictly left to right |
| FrequencyGraph.FrameAtTwoSeconds | src/components/frequencyGraph.tsx:19-20 | at 2.0 s the view shows frame 17 of the 8192/916 frames-per-second analysis |
| FrequencyGraph.KernelSize | src/components/frequencyGraph.tsx:87 | the kernel length is odd and at least 3 |
| FrequencyGraph.KernelSizeAtSigma | src/components/frequencyGraph.tsx:111 | with sigma 1.5 the kernel has 11 weights |
| FrequencyGraph.Kernel | src/components/frequencyGraph.tsx:90-93 | every weight is positive and the centre weight is 1 |
| FrequencyGraph.BlurSpec | src/components/frequencyGraph.tsx:96-107 | the blur keeps the input's length |
| FrequencyGraph.GaussianBlur | src/components/frequencyGraph.tsx:86-108 | the map with its inner accumulation loop computes the normalised-weight blur |
| FrequencyGraph.AccWeight | src/components/frequencyGraph.tsx:99-105 | the running weight sum is non-negative and includes the centre weight once past it |
| FrequencyGraph.AccBounds | src/components/frequencyGraph.tsx:99-105 | with every in-range window sample finite and in [lo, hi], the running sum lies between lo and hi times the running weight |
| FrequencyGraph.TapBounds | src/components/frequencyGraph.tsx:100-104 | one tap preserves that bound |
| FrequencyGraph.BlurDenominatorPositive | src/components/frequencyGraph.tsx:106 | the denominator is at least the centre weight 1 |
| FrequencyGraph.BlurWithinWindow | src/components/frequencyGraph.tsx:96-106 | a smoothed value lies between the min and max of its in-range window |
| FrequencyGraph.BlurConstant | src/components/frequencyGraph.tsx:96-106 | a constant input stays constant |
| FrequencyGraph.DrawFrame | src/components/frequencyGraph.tsx:110-143 | the points are those of the raw frame, normalised by the smoothed frame's maximum |
| FrequencyGraph.DrawnFrame | src/components/frequencyGraph.tsx:110-140 | bin k > 0 is drawn exactly when its raw amplitude is finite and the smoothed peak finite and non-zero, at the key-axis x of `k * 4096 / n` Hz; a zero or non-finite peak draws nothing; the points run left to right |
| FrequencyGraph.FrequencyGraphView.constructor | src/components/frequencyGraph.tsx:26-29 | no spectrogram and no points |
| FrequencyGraph.FrequencyGraphView.SetData | src/components/frequencyGraph.tsx:52 | a decoded response replaces the spectrogram |
| FrequencyGraph.FrequencyGraphView.Update | src/components/frequencyGraph.tsx:65-79 | a tick redraws from the frame under the playback position, or keeps the points when no frame is selected |
| TestFft.FrameAtTwoSeconds | src/components/testFFT.tsx:47 | at 2.0 s the view shows frame 70 of the 4500/128 frames-per-second analysis |
| TestFft.DrawFrame | src/components/testFFT.tsx:64-94 | the points come from the raw frame normalised by its own maximum, with the finite pairs kept |
| TestFft.DrawnFrame | src/components/testFFT.tsx:65-91 | bin k > 0 is drawn exactly when its amplitude is finite and the peak finite and non-zero, at the key-axis x of `k * 2250 / n` Hz; one NaN blanks the curve; the points run left to right |
| TestFft.TestFftView.constructor | src/components/testFFT.tsx:18-19 | no data and no points |
| TestFft.TestFftView.SetData | src/components/testFFT.tsx:33 | a response replaces the data |
| TestFft.TestFftView.Update | src/components/testFFT.tsx:43-57 | a tick redraws from the selected frame, or keeps the points when none is selected |
| FftGraph.Resolution | src/components/FFTGraph.tsx:88 | a missing or zero sample rate falls back to 4186 Hz; otherwise resolution × 8192 is the sample rate |
| FftGraph.DrawFrequencyData | src/components/FFTGraph.tsx:85-126 | the forEach loop with its early returns computes the specified points |
| FftGraph.FftCandidateShape | src/components/FFTGraph.tsx:97-121 | bin i is drawn exactly when `i * resolution` is in [C1, C7], it survives the thinning above 500 Hz, its amplitude is finite and the maximum finite and non-zero; then at its key-axis x and exaggerated y |
| FftGraph.FftY | src/components/FFTGraph.tsx:108-117 | the height is finite exactly when amplitude and a non-zero maximum are, and uses the full height with headroom 140 |
| FftGraph.NothingDrawn | src/components/FFTGraph.tsx:86-94 | an empty array, silence (all -Infinity) or any NaN draws nothing |
| FftGraph.FftCandidatesOrdered | src/components/FFTGraph.tsx:96-121 | with a positive resolution, higher drawn bins lie further right |
| FftGraph.KeyXOrdered | src/components/FFTGraph.tsx:105 | points at the key-axis x of their bin frequencies are ordered by bin |
| FftGraph.BinXOrdered | src/components/FFTGraph.tsx:97-105 | a higher bin's key-axis x is further right |
| FftGraph.FftPointsOrdered | src/components/FFTGraph.tsx:85-126 | with a non-negative sample rate and a visible axis, the points run strictly left to right |
| FftGraph.CandidateX | src/components/FFTGraph.tsx:100-105 | a drawn bin is at least C1 and sits at the key-axis x of its frequency |
| FftGraph.ThinnedAbove500 | src/components/FFTGraph.tsx:101-103 | above 500 Hz drawn bins are a multiple of 4 apart |
| PianoRoll.Keys | src/components/pianoRoll.tsx:9-28 | key k is named `noteNames[k % 12]` followed by `1 + k / 12` |
| PianoRoll.GenerateNotes | src/components/pianoRoll.tsx:9-28 | the while loop returns the 12n names of octaves 1 .. n, then the closing C of octave n + 1 |
| PianoRoll.SixOctaves | src/components/pianoRoll.tsx:30 | the drawn piano has 73 keys from C1 to C7 |
| PianoRoll.NameSplit | src/components/pianoRoll.tsx:21 | a digit-free name followed by a number splits in one way only |
| PianoRoll.NoteNamesShape | src/components/pianoRoll.tsx:11 | the twelve names are distinct, non-empty and digit-free |
| PianoRoll.NotesDistinct | src/components/pianoRoll.tsx:9-28 | no two keys share a name |
| PianoRoll.BlackKeyPattern | src/components/pianoRoll.tsx:31 | key k is black exactly at steps 1, 3, 6, 8 and 10 of its octave |
| PianoRoll.KeysBlackCount | src/components/pianoRoll.tsx:31 | the first m keys hold 5 black keys per full octave plus those below the remainder |
| PianoRoll.KeyColours | src/components/pianoRoll.tsx:30-31 | n octaves have 5n black and 7n + 1 white keys; the drawn piano has 43 white keys, the axis's 43 columns |
| PianoRoll.LabelledKeys | src/components/pianoRoll.tsx:198 | only the C keys carry their name |
| PianoRoll.RowWidthWhiteKeys | src/components/pianoRoll.tsx:188-194 | black keys take no room, so a row is as wide as its white keys |
| PianoRoll.InitialRowFills | src/components/pianoRoll.tsx:34 | at the initial zoom the 43 white keys fill 100.0309 percent of the row |
| PianoRoll.WheelStep | src/components/pianoRoll.tsx:102-109 | a Ctrl-wheel step always lies in [2.3263, 10]: one key fewer (wheel down) or more (wheel up) when that is in range, exactly 2.3263 when it would fall below, exactly 10 when it would rise above |
| PianoRoll.WheelDirection | src/components/pianoRoll.tsx:104-107 | scrolling down never widens the keys and scrolling up never narrows them |
| PianoRoll.ButtonRange | src/components/pianoRoll.tsx:141-156 | the buttons keep the zoom in (1, 12) but can leave the wheel's range (3.3263 → 1.3263, 9.5 → 11.5); the next wheel step from there jumps to the wheel's limit (2.3263, 10) |
| PianoRoll.PianoVolumeIcon | src/components/pianoRoll.tsx:122-130 | muted exactly at 0, low on (0, 33], mid on (33, 66], high otherwise, negatives included |
| PianoRoll.VolumeIconsAgree | src/components/pianoRoll.tsx:122-130 | on the slider range the piano roll and transport bar pick the same icon; they differ only below 0 |
| PianoRoll.PianoRollView.constructor | src/components/pianoRoll.tsx:34-36 | zoom 2.3263, no held note, volume 100 |
| PianoRoll.PianoRollView.PlayNote | src/components/pianoRoll.tsx:49-62 | one oscillator at the note's frequency, none for a note without one |
| PianoRoll.PianoRollView.MouseDown | src/components/pianoRoll.tsx:64-73 | a left press on a key holds and plays it; anything else changes nothing |
| PianoRoll.PianoRollView.MouseMove | src/components/pianoRoll.tsx:75-86 | while a note is held, moving onto another key plays it and holds it; anything else changes nothing |
| PianoRoll.PianoRollView.MouseUp | src/components/pianoRoll.tsx:88-90 | releasing the button drops the held note |
| PianoRoll.PianoRollView.HandleWheel | src/components/pianoRoll.tsx:102-111 | one call of the wheel handler: only a Ctrl-wheel zooms, by one wheel step (how many calls one notch makes is `WheelListenersAsWritten.Wheel`) |
| PianoRoll.WheelSteps | src/components/pianoRoll.tsx:105-108 | the zoom after n composed functional updates of one notch: unchanged for n = 0, within [2.3263, 10] otherwise |
| PianoRoll.WheelStepsWiden | src/components/pianoRoll.tsx:105-108 | with room for them, n composed updates widen the keyboard by n keys, not by one |
| PianoRoll.WheelListenersAsWritten.MouseEnter | src/components/pianoRoll.tsx:163-169 | entering attaches the current render's wheel closure to the ones already attached |
| PianoRoll.WheelListenersAsWritten.MouseLeave | src/components/pianoRoll.tsx:170-174 | leaving detaches only the current render's closure; one attached by an earlier render stays |
| PianoRoll.WheelListenersAsWritten.Rerender | src/components/pianoRoll.tsx:34-36 | a state change makes a new render, whose closure differs from the attached ones |
| PianoRoll.WheelListenersAsWritten.Wheel | src/components/pianoRoll.tsx:101-110 | a notch runs every attached closure, so under Ctrl it applies one wheel step per attached listener; a changed zoom renders again |
| PianoRoll.WheelListener.MouseEnter | src/components/pianoRoll.tsx:163-169 | with one closure that survives renders, entering attaches it |
| PianoRoll.WheelListener.MouseLeave | src/components/pianoRoll.tsx:170-174 | leaving detaches that same closure |
| PianoRoll.WheelListener.Wheel | src/components/pianoRoll.tsx:101-110 | a notch is exactly one wheel step under Ctrl while attached, and nothing otherwise |
| PianoRoll.ReenterAfterZoom | src/components/pianoRoll.tsx:163-174 | enter, zoom in, leave, re-enter, zoom in: 5.3263 as written, 4.3263 with one surviving closure |
| PianoRoll.PianoRollView.ClickMinus | src/components/pianoRoll.tsx:141-148 | two keys narrower unless at 3 or less |
| PianoRoll.PianoRollView.ClickPlus | src/components/pianoRoll.tsx:149-156 | two keys wider unless at 10 or more |
| PianoRoll.PianoRollView.HandleVolumeChange | src/components/pianoRoll.tsx:113-117 | the slider value, and a gain of value / 100 in [0, 1] on the slider's range |
| Controls.DurationFields | src/components/controls.tsx:42-50 | the minutes and seconds shown are the whole seconds split by 60, seconds below 60 |
| Controls.FormatDurationReadsBack | src/components/controls.tsx:42-50 | the display reads back as the whole seconds; the seconds field is two digits below 60, the minutes at least two digits and never truncated |
| Controls.TotalText | src/components/controls.tsx:241 | a zero duration shows "00:00", which is what formatDuration(0) gives |
| Controls.DurationOrZero | src/components/controls.tsx:96 | `duration || 0` turns NaN and 0 into 0 and keeps everything else |
| Controls.ControlsVolumeIcon | src/components/controls.tsx:64-69 | muted exactly at 0, low for other values up to 33, mid on (33, 66], high above 66 |
| Controls.TitleAndLabel | src/components/controls.tsx:151-155 | over the store's song, title and label both report a missing song ("No Song Loaded", "NO FILE"); a song `<stem>.<ext>` is titled by its full name and labelled by its upper-cased extension; a file with an empty name is titled as no song while its label reads " FILE" |
| Controls.SplitLast | src/components/controls.tsx:154 | the last piece of a split is what follows the last separator |
| Controls.FileLabelExtension | src/components/controls.tsx:154 | the label is the upper-cased text after the last '.', or the whole name without a '.', plus " FILE" |
| Controls.ControlsView.constructor | src/components/controls.tsx:32-38 | not playing, speed 1, volume 75, time and duration 0, not looping |
| Controls.ControlsView.HandlePausePlay | src/components/controls.tsx:71-78 | pauses a playing element, plays a paused one, flips the button, and keeps button and element in step |
| Controls.ControlsView.ToggleLoop | src/components/controls.tsx:80-83 | the element's loop flag flips and the button mirrors the new value |
| Controls.ControlsView.HandleVolumeChange | src/components/controls.tsx:56-62 | the slider value, and an element volume of value / 100, in [0, 1] on the slider's range |
| Controls.ControlsView.HandleSlowdownChange | src/components/controls.tsx:52-54 | the speed slider's value becomes the element's playback rate |
| Controls.ControlsView.UpdateTimes | src/components/controls.tsx:94-97 | the position is copied and the duration defaults to 0 |
| Controls.ControlsView.HandleEnded | src/components/controls.tsx:99 | the button shows the end of playback |
| Controls.ControlsView.LabelClick | src/components/controls.tsx:118-121 | clicking the upload label pauses the song and the button |
| Controls.ControlsView.ApplySlowdown | src/components/controls.tsx:85-89 | whenever the slider or the song changes, the element plays at the slider's speed again |
| Controls.ControlsView.DropAsWritten | src/components/controls.tsx:123-130 | a drop makes the first file the store's song and the loaded, paused source at the slider's speed, but leaves the button as it was: dropping while playing leaves the button out of step with the element |
| Controls.ControlsView.Drop | src/components/controls.tsx:117-130 | a drop handled like a click on the label: afterwards the song is paused, the button shows play, the dropped file is the loaded song at the slider's speed |
| Controls.DropWhilePlaying | src/components/controls.tsx:123-130 | on a concrete run, the button is in step with the element before a drop while playing and out of step after the as-written drop, in step after the corrected one |
| Transcription.OriginalNameAfterPrefix | src/components/Transcription.tsx:56-57 | the original name is everything after the first '_', later underscores included |
| Transcription.OriginalNameWithoutPrefix | src/components/Transcription.tsx:56-57 | a URL without '_' gives the empty name |
| Transcription.TranscriptionPage.constructor | src/components/Transcription.tsx:14-21 | the page holds the store and the audio element |
| Transcription.TranscriptionPage.HandleSongUpload | src/components/Transcription.tsx:23-28 | a selected file becomes the song; with none nothing changes |
| Transcription.TranscriptionPage.LoadSong | src/components/Transcription.tsx:49-67 | only after a successful query with data and a fetched body, the file named by its original name becomes the song and is loaded into the element (paused, rewound to 0, duration unknown, speed 1); otherwise nothing changes |

## Left out

- Rendering (Konva shapes, React markup, styles and tooltips) is not modelled. The model keeps the numbers the shapes are drawn from.
- The network is not modelled: the spectrogram and FFT requests, MessagePack/Pako decoding, the project query and the song fetch. Their results are parameters; for the song fetch, a failure is `None`.
- Web Audio is not modelled: the analyser node, biquad filters, oscillators, gain ramps and `decodeAudioData`. The decoded channel, its duration and the analyser's array are parameters, and an oscillator start is recorded as its frequency.
- Scheduling is not modelled: `requestAnimationFrame` loops, Konva tweens and the drag auto-scroll interval. Only the computation of one tick is modelled (`Sync`, `Update`). The spectrum views start a new animation loop on every change of their dependencies and never cancel the old ones (frequencyGraph.tsx:65-79, testFFT.tsx:43-57). Each loop keeps the data and the measured bounds of the render that started it. The dependencies name the height but not the width, so after a resize of the width only, the curve is drawn at the old width while the key labels use the new one. `Update` instead takes the current data and `view` as they stand, which is one tick of the newest loop after a height change.
- WaveForm.WaveformView.HandleFileChange: treats the awaited decode (waveForm.tsx:61) as atomic, so two interleavings are not captured. First, when two files are chosen in quick succession, the first decode can finish last and overwrite the envelope and duration (lines 128-129) with the first file's while the element holds the second. Second, a marker added while the decode runs is wiped by the `setMarkers([])` that follows it. The same holds for the spectrogram and FFT requests (frequencyGraph.tsx:31-63, testFFT.tsx:21-41): each response is modelled as replacing the data on arrival (`SetData`), and responses for an earlier song arriving after a later one are not ordered.
- IEEE-754 rounding and signed zero are not modelled. Numbers are exact reals plus the three special values, and `x / 0` treats the zero as +0.
- `Math.log2` and `Math.exp` are abstract functions with only the laws above. Concrete values such as `log2(32.703 / 32.7)` are therefore not computed.
- The measured stage width and height (`useMeasure`) are parameters.
- `noteDictionary.ts` is not part of this model. Note frequencies are a parameter `map<string, real>`.
- The media element's own behaviour is not modelled: time advancing, clamping a seek to the duration, buffering, and `onloadeddata`/object-URL revocation. Its fields change only through the calls modelled.
- The frequency graph's Stage `scaleX` (zoom / 2.3263) affects only drawing and is not modelled.
- FftGraph.DrawFrequencyData: the component's `fftData` state and the analyser polling that fills it are left out. The array is passed in.
- WaveForm.TimestampFields: requires a non-negative timestamp. Markers take the element's current time, which is never negative.
- Controls.DurationFields: requires a non-negative number of seconds, for the same reason.
- FrequencyGraph.KernelSize: requires sigma > 0. The component calls the blur only with sigma 1.5; sigma <= 0 is not modelled.
- PianoRoll.GenerateNotes: takes a `nat` octave count. A negative `maxOctave` is not modelled: the loop then does not run, and the function returns the single key `C{maxOctave + 1}` ("C0" for -1, "C-2" for -3). The component calls it only with 6.
- Controls.TotalText: shows an infinite duration (a live stream) through `FormatDuration` of finite seconds only. `Infinity` minutes are not rendered.
- Text.ToUpper: upper-cases ASCII letters only. Locale and Unicode case mapping is left out.
- An empty trailing chunk of the envelope is not a column with min <= max: the code takes `Math.min()` = +Infinity and `Math.max()` = -Infinity over it, and the model keeps those values (`Envelope.SummaryExtremes`, `Envelope.EnvelopeEntry`).
- Some parts of the repository are outside the modelled core:
  - the server (STFT, authentication, database, mail);
  - the UI shell pages (home, about, auth, settings, project creation, sidebar);
  - the unused prototypes (test canvas, resizable panel, marker text area).

## Findings

| source | as written | input that shows it | evidently intended | confidence | as-written member | corrected member |
|---|---|---|---|---|---|---|
| src/components/controls.tsx:123-130 | a file dropped on the upload label goes to the upload handler without pausing the song or resetting `isPlaying`, unlike a click on the same label (lines 117-121); the new song is then loaded into the element, which pauses it | start a song with the play button, then drop a file on the label: the element is paused while `isPlaying` is still true, so the button shows "pause" over a stopped song | the drop pauses the song and resets the button like the click does, so the button keeps showing the element's state | medium, not executed | Controls.ControlsView.DropAsWritten | Controls.ControlsView.Drop |
| src/components/pianoRoll.tsx:163-174 | the enter handler attaches the current render's `handleWheel` and the leave handler detaches the current render's `handleWheel`; after any re-render in between (a held note, a zoom step) these are different closures, so the old listener stays attached and re-entering adds another | enter the keyboard, Ctrl-wheel up once (2.3263 → 3.3263), leave, re-enter, Ctrl-wheel up once more: two listeners fire and the zoom goes to 5.3263 | one wheel listener at most, so that a notch is always one step | medium, not executed | PianoRoll.WheelListenersAsWritten.Wheel | PianoRoll.WheelListener.Wheel |
