# Waveform view model

A Dafny model of the waveform view of the Podcaster Android app, the class
`WaveformView`. The view draws the recorded audio as vertical lines. Its
model here covers:

- Signal conditioning (module `SignalConditioner`). A recording's per-frame
  gains are smoothed over three frames and pre-scaled so the peak fits in
  0..255. They are binned into a 256-bin histogram, and the floor (a 5% walk
  up) and the ceiling (a 1% walk down) are then calibrated. Each gain is
  normalised to [0, 1], clamped and squared.
- The zoom pyramid (module `LevelPyramid`). Level 0 doubles the heights with
  interpolated midpoints. Level 1 is the heights themselves. Levels 2 to 4 each
  halve the previous level by averaging pairs. The starting zoom level depends
  on the recording's length.
- The viewport (module `Viewport`). Zooming in and out moves one level at a
  time. It doubles or halves the selection bounds and rescales the offset
  around the centre of the view, clamping it at zero. `setZoomLevel` steps
  one level at a time until it reaches the target.
- What a redraw works out before it paints (module `Display`):
  - the number of visible columns;
  - the start and end time labels (`M:SS`);
  - the boundary and selected columns of the selection;
  - the column of the playback line;
  - the columns on which a flag is drawn;
  - the integer heights of the cache.
- The view object itself (module `WaveformViews`, class `WaveformView`). Its
  fields are the levels, the zoom level, the offset, the selection, the
  playback position, the flags and the cached integer heights (an `array`).
  Its methods update them as the Java methods do. `Valid()` ties the levels
  to the pyramid of the normalised heights, and the cache to the current
  level's values truncated at the half height it was filled for.
- Java arithmetic (module `JavaLang`):
  - `int` division and remainder truncate toward zero (`Div`, `Rem`).
  - The `(int)` cast of a double truncates toward zero (`TruncReal`).
  - `"" + n` renders an int in decimal (`IntToString`).

Java `double`s are modelled as exact `real`s and Java `int`s as unbounded
integers. Each loop of the source is a Dafny method with its loop. Most are
proved equal to a specification function, and the properties of the view are
lemmas about those functions. Two state their result directly: the loop of
`setFlags` yields the set of the flags' seconds, and the reads of
`drawWaveForm` stay in bounds exactly under a stated condition.

Behaviour of the code worth noting:

- The code does not guard against a negative calibrated range, which inverts
  the mapping: frames below the floor rise towards 1 and frames at or above it
  clamp to 0. A silent recording of 20 frames or more gets floor 1 and ceiling
  0, so every height is 1 (`SignalConditioner.SilenceOfTwentyFramesIsFullHeight`).
  100 frames of gain 510 get floor 255 and ceiling 254, so every height is 0
  (`SignalConditioner.LoudSteadyRecordingIsFlat`).
- Cached integer heights are truncated, not rounded (`Display.RenderedTruncates`).
- `setSoundFile` does not reset the offset or the selection.
- A negative time renders with the remainder's sign inside the seconds
  field, for example -5 seconds as `0:0-5` (`Display.NegativeTimeString`).
- A silent recording of 1 to 19 frames has floor equal to ceiling, so the
  normalisation divides by zero: a frame at the floor gets NaN and the others
  saturate to 0 or 1 (`SignalConditioner.ShortSilenceHasZeroRange`). A
  recording with no frame divides nothing, and loads with every level empty
  (`WaveformViews.LoadEmptyRecording`).
- A redraw with a negative offset and at least one visible column reads the
  cache at a negative index and throws `ArrayIndexOutOfBoundsException`
  (`WaveformViews.WaveformView.DrawWaveForm`, the `IndexOutOfBounds` outcome of
  `WaveformViews.WaveformView.OnDraw`).

## Model

| member | source | states |
|---|---|---|
| `SignalConditioner.SmoothGains` | app/src/main/java/com/codebox/podcaster/ui/customViews/wave/view/WaveformView.java:565-584 | the loop computes the three-frame moving average, with two-frame averages at both ends and the raw gain for recordings of one or two frames |
| `SignalConditioner.SmoothedWithinGainRange` | app/src/main/java/com/codebox/podcaster/ui/customViews/wave/view/WaveformView.java:566-584 | smoothing never leaves the range of the gains: every smoothed gain lies between any lower and upper bound of all frame gains |
| `SignalConditioner.FindPeakGain` | app/src/main/java/com/codebox/podcaster/ui/customViews/wave/view/WaveformView.java:587-592 | the loop returns the peak gain, which starts at 1.0 |
| `SignalConditioner.PeakGainIsMaximum` | app/src/main/java/com/codebox/podcaster/ui/customViews/wave/view/WaveformView.java:587-592 | the peak is at least 1.0, bounds every smoothed gain, and is 1.0 or attained by some frame |
| `SignalConditioner.ScaledGainFits` | app/src/main/java/com/codebox/podcaster/ui/customViews/wave/view/WaveformView.java:593-596 | the scale factor lies in (0, 1], and a gain between 0 and the peak scales into [0, 255] |
| `SignalConditioner.ScaledGainsFitByteRange` | app/src/main/java/com/codebox/podcaster/ui/customViews/wave/view/WaveformView.java:586-596 | after pre-scaling, every non-negative smoothed gain of the recording lies in [0, 255] |
| `SignalConditioner.BinIndex` | app/src/main/java/com/codebox/podcaster/ui/customViews/wave/view/WaveformView.java:602-606 | the bin is in 0..255: the truncated scaled gain when that lies in [0, 256), 0 below and 255 above |
| `SignalConditioner.BinIsFloorOfScaledGain` | app/src/main/java/com/codebox/podcaster/ui/customViews/wave/view/WaveformView.java:593-606 | for a gain between 0 and the peak, the bin is the floor of the scaled gain |
| `SignalConditioner.BuildHistogram` | app/src/main/java/com/codebox/podcaster/ui/customViews/wave/view/WaveformView.java:599-612 | the loop yields the histogram of the bins and the largest bin used |
| `SignalConditioner.HistogramAppend` | app/src/main/java/com/codebox/podcaster/ui/customViews/wave/view/WaveformView.java:611 | binning one more frame increments exactly that frame's bin and no other |
| `SignalConditioner.HistogramTotal` | app/src/main/java/com/codebox/podcaster/ui/customViews/wave/view/WaveformView.java:600-612 | the 256 bins together count every frame exactly once |
| `SignalConditioner.TopBinIsLargestUsed` | app/src/main/java/com/codebox/podcaster/ui/customViews/wave/view/WaveformView.java:599-609 | the top bin bounds every bin, is used by some frame when there is one, and every bin above it is empty |
| `SignalConditioner.CalibrateMin` | app/src/main/java/com/codebox/podcaster/ui/customViews/wave/view/WaveformView.java:615-620 | the 5% walk stops in 0..255 and agrees with the calibrated floor |
| `SignalConditioner.CalibratedMinIsLowPercentile` | app/src/main/java/com/codebox/podcaster/ui/customViews/wave/view/WaveformView.java:615-620 | the floor is the first index whose lower bins hold at least numFrames / 20 frames (or 255), and no lower index does so |
| `SignalConditioner.CalibrateMax` | app/src/main/java/com/codebox/podcaster/ui/customViews/wave/view/WaveformView.java:623-627 | the 1% walk stops between min(top, 2) and the top bin and agrees with the calibrated ceiling |
| `SignalConditioner.CalibratedMaxIsHighPercentile` | app/src/main/java/com/codebox/podcaster/ui/customViews/wave/view/WaveformView.java:623-627 | the ceiling is the highest index, never walked below 2, whose upper bins hold at least numFrames / 100 frames; every higher index holds fewer |
| `SignalConditioner.Calibrate` | app/src/main/java/com/codebox/podcaster/ui/customViews/wave/view/WaveformView.java:563-627 | the calibration keeps the smoothed gains, one per frame, with floor and ceiling both in 0..255 |
| `SignalConditioner.ComputeHeights` | app/src/main/java/com/codebox/podcaster/ui/customViews/wave/view/WaveformView.java:630-639 | the loop yields each gain normalised against floor and ceiling, clamped to [0, 1] and squared |
| `SignalConditioner.NormalizedInUnitRange` | app/src/main/java/com/codebox/podcaster/ui/customViews/wave/view/WaveformView.java:633-638 | every normalised height lies in [0, 1] |
| `SignalConditioner.NormalizedHeightsInUnitRange` | app/src/main/java/com/codebox/podcaster/ui/customViews/wave/view/WaveformView.java:563-639 | every height of a recording lies in [0, 1] |
| `SignalConditioner.NormalizedPreservesOrder` | app/src/main/java/com/codebox/podcaster/ui/customViews/wave/view/WaveformView.java:631-638 | with a positive range, a louder frame never gets a lower height |
| `SignalConditioner.NormalizedSaturates` | app/src/main/java/com/codebox/podcaster/ui/customViews/wave/view/WaveformView.java:631-638 | with a positive range, gains at or below the floor map to 0 and gains at or above the ceiling map to 1 |
| `SignalConditioner.NormalizedHeights` | app/src/main/java/com/codebox/podcaster/ui/customViews/wave/view/WaveformView.java:630-639 | one height per frame, each the frame's smoothed gain normalised against the calibrated floor and ceiling |
| `SignalConditioner.ConditionSignal` | app/src/main/java/com/codebox/podcaster/ui/customViews/wave/view/WaveformView.java:563-639 | the whole conditioning phase yields the normalised heights: one per frame, each in [0, 1]; a recording without frames is accepted |
| `SignalConditioner.SilentCalibration` | app/src/main/java/com/codebox/podcaster/ui/customViews/wave/view/WaveformView.java:587-627 | silence is not pre-scaled, its ceiling is 0, and its floor is 1 from 20 frames on and 0 below |
| `SignalConditioner.SilenceOfTwentyFramesIsFullHeight` | app/src/main/java/com/codebox/podcaster/ui/customViews/wave/view/WaveformView.java:615-639 | a silent recording of 20 frames or more has a non-zero range, and every height is 1 |
| `SignalConditioner.LoudSteadyRecordingIsFlat` | app/src/main/java/com/codebox/podcaster/ui/customViews/wave/view/WaveformView.java:586-639 | 100 frames of gain 510 are pre-scaled into bin 255 and calibrate to floor 255 and ceiling 254; the negative range is not guarded, and every height is 0 |
| `SignalConditioner.ShortSilenceHasZeroRange` | app/src/main/java/com/codebox/podcaster/ui/customViews/wave/view/WaveformView.java:615-631 | a silent recording of fewer than 20 frames has floor equal to ceiling; the heights are undefined exactly for 1 to 19 frames, where the source divides by zero |
| `SignalConditioner.EmptyRecordingHasNoHeights` | app/src/main/java/com/codebox/podcaster/ui/customViews/wave/view/WaveformView.java:615-639 | a recording without frames has floor equal to ceiling, yet its heights are defined: there are none |
| `LevelPyramid.UpsampleHeights` | app/src/main/java/com/codebox/podcaster/ui/customViews/wave/view/WaveformView.java:647-657 | the loop builds level 0: each frame's height at the odd column, the midpoint with the previous frame at the even column, and half the first height at column 0 |
| `LevelPyramid.HalveValues` | app/src/main/java/com/codebox/podcaster/ui/customViews/wave/view/WaveformView.java:669-676 | the loop builds the next level down: the mean of each pair of columns, with a trailing odd column dropped |
| `LevelPyramid.BuildLevels` | app/src/main/java/com/codebox/podcaster/ui/customViews/wave/view/WaveformView.java:641-677 | the five levels built are exactly the pyramid of the heights |
| `LevelPyramid.PyramidShape` | app/src/main/java/com/codebox/podcaster/ui/customViews/wave/view/WaveformView.java:641-677 | the lengths are 2n, n, n/2, n/4 and n/8, the zoom factors 2, 1, 1/2, 1/4 and 1/8, with one value per column at every level |
| `LevelPyramid.ZoomFactorHalves` | app/src/main/java/com/codebox/podcaster/ui/customViews/wave/view/WaveformView.java:647-671 | each zoom level has half the zoom factor of the one before |
| `LevelPyramid.PyramidWellFormed` | app/src/main/java/com/codebox/podcaster/ui/customViews/wave/view/WaveformView.java:641-677 | every level has a positive zoom factor and as many values as its length |
| `LevelPyramid.LevelOneIsHeights` | app/src/main/java/com/codebox/podcaster/ui/customViews/wave/view/WaveformView.java:660-665 | level 1 is the heights themselves, one column per frame |
| `LevelPyramid.LevelZeroInterleavesHeights` | app/src/main/java/com/codebox/podcaster/ui/customViews/wave/view/WaveformView.java:650-657 | the odd columns of level 0 are exactly level 1 |
| `LevelPyramid.LevelZeroInterpolates` | app/src/main/java/com/codebox/podcaster/ui/customViews/wave/view/WaveformView.java:650-657 | each even column of level 0 lies between the heights of the two frames it joins (column 0 between 0 and the first height) |
| `LevelPyramid.HalvingDropsTrailingColumn` | app/src/main/java/com/codebox/podcaster/ui/customViews/wave/view/WaveformView.java:669-676 | halving a level of odd length ignores its last column |
| `LevelPyramid.MergeBlocks` | app/src/main/java/com/codebox/podcaster/ui/customViews/wave/view/WaveformView.java:673-675 | the mean of two adjacent blocks' means is the mean of the block twice as long |
| `LevelPyramid.HalvedBlockMean` | app/src/main/java/com/codebox/podcaster/ui/customViews/wave/view/WaveformView.java:668-677 | halving a level of means of m-frame blocks gives the means of 2m-frame blocks |
| `LevelPyramid.LevelIsBlockMean` | app/src/main/java/com/codebox/podcaster/ui/customViews/wave/view/WaveformView.java:659-677 | column i of level z >= 1 is the mean of the heights of frames i * 2^(z-1) up to (i+1) * 2^(z-1) - 1 |
| `LevelPyramid.HalvedInUnitRange` | app/src/main/java/com/codebox/podcaster/ui/customViews/wave/view/WaveformView.java:672-675 | halving keeps values in [0, 1] |
| `LevelPyramid.UpsampledInUnitRange` | app/src/main/java/com/codebox/podcaster/ui/customViews/wave/view/WaveformView.java:650-657 | upsampling keeps values in [0, 1] |
| `LevelPyramid.PyramidInUnitRange` | app/src/main/java/com/codebox/podcaster/ui/customViews/wave/view/WaveformView.java:641-677 | every value of every level lies in [0, 1] when the heights do |
| `LevelPyramid.InitialZoomLevel` | app/src/main/java/com/codebox/podcaster/ui/customViews/wave/view/WaveformView.java:679-687 | the starting level is one of 0..3, never the coarsest |
| `LevelPyramid.InitialZoomLevelMonotone` | app/src/main/java/com/codebox/podcaster/ui/customViews/wave/view/WaveformView.java:679-687 | a longer recording never starts at a finer level |
| `LevelPyramid.InitialLevelLength` | app/src/main/java/com/codebox/podcaster/ui/customViews/wave/view/WaveformView.java:679-687 | past 300 frames the starting level has more than 300 columns; up to 5000 frames it has at most 2500 |
| `LevelPyramid.ComputeDoublesForAllZoomLevels` | app/src/main/java/com/codebox/podcaster/ui/customViews/wave/view/WaveformView.java:562-690 | the build yields the pyramid of the recording's normalised heights and its starting zoom level |
| `LevelPyramid.RecordingPyramidInUnitRange` | app/src/main/java/com/codebox/podcaster/ui/customViews/wave/view/WaveformView.java:562-690 | for any recording the build accepts, level 1 has one value per frame and every level value lies in [0, 1] |
| `LevelPyramid.EmptyRecordingPyramid` | app/src/main/java/com/codebox/podcaster/ui/customViews/wave/view/WaveformView.java:641-687 | a recording without frames builds five empty levels and starts at level 0 |
| `Viewport.ZoomStaysInRange` | app/src/main/java/com/codebox/podcaster/ui/customViews/wave/view/WaveformView.java:255-291 | zooming in or out keeps the level within 0..numZoomLevels-1, and a zoom that happens leaves a non-negative offset |
| `Viewport.ZoomedIn` | app/src/main/java/com/codebox/podcaster/ui/customViews/wave/view/WaveformView.java:259-272 | a possible zoom-in moves one level finer and leaves a non-negative offset; an impossible one changes nothing |
| `Viewport.ZoomedOut` | app/src/main/java/com/codebox/podcaster/ui/customViews/wave/view/WaveformView.java:278-291 | a possible zoom-out moves one level coarser and leaves a non-negative offset; an impossible one changes nothing |
| `Viewport.ZoomInKeepsCenter` | app/src/main/java/com/codebox/podcaster/ui/customViews/wave/view/WaveformView.java:266-270 | when the offset is not clamped, zooming in doubles the column at the centre of the view |
| `Viewport.ZoomKeepsSelectionOrder` | app/src/main/java/com/codebox/podcaster/ui/customViews/wave/view/WaveformView.java:262-263 | zooming keeps selection start at or before selection end |
| `Viewport.ZoomInThenOut` | app/src/main/java/com/codebox/podcaster/ui/customViews/wave/view/WaveformView.java:259-291 | zooming in and then out restores the level and the selection, and restores the offset exactly when it was not negative |
| `Viewport.ZoomInThenOutRestores` | app/src/main/java/com/codebox/podcaster/ui/customViews/wave/view/WaveformView.java:259-291 | from a non-negative offset, zooming in and then out restores the whole viewport |
| `Viewport.ZoomOutThenIn` | app/src/main/java/com/codebox/podcaster/ui/customViews/wave/view/WaveformView.java:259-291 | zooming out and then in restores the level, and each selection bound is restored exactly when it was even |
| `Viewport.ZoomedTo` | app/src/main/java/com/codebox/podcaster/ui/customViews/wave/view/WaveformView.java:246-253 | stepping toward a reachable target ends at the target level |
| `Viewport.ZoomedToFiner` | app/src/main/java/com/codebox/podcaster/ui/customViews/wave/view/WaveformView.java:246-249 | moving to a finer level is that many single zoom-ins |
| `Viewport.ZoomedToCoarser` | app/src/main/java/com/codebox/podcaster/ui/customViews/wave/view/WaveformView.java:250-252 | moving to a coarser level is that many single zoom-outs |
| `Viewport.ZoomInOutTimes` | app/src/main/java/com/codebox/podcaster/ui/customViews/wave/view/WaveformView.java:259-291 | from a non-negative offset, k zoom-ins followed by k zoom-outs restore the viewport |
| `Viewport.SetZoomLevelRoundTrip` | app/src/main/java/com/codebox/podcaster/ui/customViews/wave/view/WaveformView.java:246-253 | from a non-negative offset, moving to a finer level and back to the original one restores the viewport |
| `Display.TimeString` | app/src/main/java/com/codebox/podcaster/ui/customViews/wave/view/WaveformView.java:489-496 | a non-negative time renders as decimal minutes, a colon and two decimal seconds digits |
| `Display.TimeStringReadsBack` | app/src/main/java/com/codebox/podcaster/ui/customViews/wave/view/WaveformView.java:489-496 | a non-negative time renders as minutes without leading zeros, a colon and two seconds digits below 60, reading back as that time |
| `Display.NegativeTimeString` | app/src/main/java/com/codebox/podcaster/ui/customViews/wave/view/WaveformView.java:489-496 | -5 seconds renders as `0:0-5`, since Java's remainder keeps the sign |
| `Display.TimeLabelsInOrder` | app/src/main/java/com/codebox/podcaster/ui/customViews/wave/view/WaveformView.java:464-469 | with a non-negative offset and step and at least one column, the start label's second is non-negative and not after the end label's |
| `Display.VisibleWidth` | app/src/main/java/com/codebox/podcaster/ui/customViews/wave/view/WaveformView.java:402-406 | the visible width is the smaller of the view width and the columns past the offset |
| `Display.VisibleColumnsInBounds` | app/src/main/java/com/codebox/podcaster/ui/customViews/wave/view/WaveformView.java:402-406 | with a non-negative offset every visible column is a cached column, and an offset at or past the end shows no column |
| `Display.VisibleWidthFillsView` | app/src/main/java/com/codebox/podcaster/ui/customViews/wave/view/WaveformView.java:402-406 | with enough columns past the offset the whole view width is drawn |
| `Display.MarksExclusive` | app/src/main/java/com/codebox/podcaster/ui/customViews/wave/view/WaveformView.java:442-448 | a column is never both a selection boundary and inside the selection |
| `Display.SelectedCount` | app/src/main/java/com/codebox/podcaster/ui/customViews/wave/view/WaveformView.java:438-449 | the columns marked selected are exactly those of the view strictly between the bounds |
| `Display.BoundaryCount` | app/src/main/java/com/codebox/podcaster/ui/customViews/wave/view/WaveformView.java:438-449 | the columns marked as boundaries are the visible bounds, counted once when both coincide |
| `Display.WholeSelectionVisible` | app/src/main/java/com/codebox/podcaster/ui/customViews/wave/view/WaveformView.java:438-449 | a selection inside the view shows two boundaries and every column between them |
| `Display.PlaybackColumns` | app/src/main/java/com/codebox/podcaster/ui/customViews/wave/view/WaveformView.java:423-429 | the playback line is on the column whose position is the playback position, and on at most one |
| `Display.ElapsedIsLinear` | app/src/main/java/com/codebox/podcaster/ui/customViews/wave/view/WaveformView.java:500-509 | the seconds accumulated one column at a time equal (offset + i) times the seconds per column |
| `Display.SecondsMonotone` | app/src/main/java/com/codebox/podcaster/ui/customViews/wave/view/WaveformView.java:500-509 | the whole second under a column never decreases from left to right |
| `Display.ScanFlags` | app/src/main/java/com/codebox/podcaster/ui/customViews/wave/view/WaveformView.java:498-524 | the loop yields the flag columns: none without flags, otherwise the columns the scan fires at |
| `Display.FlagColumnsAreFirstColumns` | app/src/main/java/com/codebox/podcaster/ui/customViews/wave/view/WaveformView.java:498-524 | a flag is drawn at column c exactly when 1 <= c <= width, c's whole second carries a flag, and it differs from the second of column c - 1 |
| `Display.FlagScanIncreasing` | app/src/main/java/com/codebox/podcaster/ui/customViews/wave/view/WaveformView.java:506-522 | flag columns come out strictly increasing and within 1..width |
| `Display.RenderedHeights` | app/src/main/java/com/codebox/podcaster/ui/customViews/wave/view/WaveformView.java:697-704 | each integer height of a [0, 1] value lies in [0, halfHeight] and is the scaled value truncated |
| `Display.RenderedMonotone` | app/src/main/java/com/codebox/podcaster/ui/customViews/wave/view/WaveformView.java:701-702 | a louder value is never drawn shorter |
| `Display.RenderedTruncates` | app/src/main/java/com/codebox/podcaster/ui/customViews/wave/view/WaveformView.java:701-702 | 0.99 at half height 10 is drawn 9 high: truncation, not rounding |
| `WaveformViews.WaveformView.constructor` | app/src/main/java/com/codebox/podcaster/ui/customViews/wave/view/WaveformView.java:189-201 | a new view has no recording or cache, offset and selection 0 and playback position -1 |
| `WaveformViews.WaveformView.LevelsOfRecording` | app/src/main/java/com/codebox/podcaster/ui/customViews/wave/view/WaveformView.java:562-690 | the levels built for any recording the build accepts satisfy the view's invariant |
| `WaveformViews.WaveformView.SetSoundFile` | app/src/main/java/com/codebox/podcaster/ui/customViews/wave/view/WaveformView.java:230-236 | loading takes the sample rate and frame size, stores the pyramid of the normalised heights and the starting level, and drops the cache; offset, selection, playback and flags are kept |
| `WaveformViews.LoadEmptyRecording` | app/src/main/java/com/codebox/podcaster/ui/customViews/wave/view/WaveformView.java:230-236 | loading a recording without frames leaves every level empty, the finest zoom level and nothing to scroll |
| `WaveformViews.WaveformView.Load` | app/src/main/java/com/codebox/podcaster/ui/customViews/wave/view/WaveformView.java:230-236 | the field updates of loading a recording keep the view's invariant |
| `WaveformViews.WaveformView.CanZoomIn` | app/src/main/java/com/codebox/podcaster/ui/customViews/wave/view/WaveformView.java:255-257 | zooming in is possible exactly when it would change the level |
| `WaveformViews.WaveformView.ZoomIn` | app/src/main/java/com/codebox/podcaster/ui/customViews/wave/view/WaveformView.java:259-272 | the viewport becomes its zoomed-in state, and the cache is dropped exactly when the zoom happens |
| `WaveformViews.WaveformView.CanZoomOut` | app/src/main/java/com/codebox/podcaster/ui/customViews/wave/view/WaveformView.java:274-276 | zooming out is possible exactly when it would change the level |
| `WaveformViews.WaveformView.ZoomOut` | app/src/main/java/com/codebox/podcaster/ui/customViews/wave/view/WaveformView.java:278-291 | the viewport becomes its zoomed-out state, and the cache is dropped exactly when the zoom happens |
| `WaveformViews.WaveformView.SetZoomLevel` | app/src/main/java/com/codebox/podcaster/ui/customViews/wave/view/WaveformView.java:246-253 | the view reaches the target level through single zoom steps, and keeps its cache only when it was already there |
| `WaveformViews.WaveformView.MaxPos` | app/src/main/java/com/codebox/podcaster/ui/customViews/wave/view/WaveformView.java:293-295 | the scroll limit is the number of columns of the current level, and of the cache when there is one |
| `WaveformViews.WaveformView.PixelsToSeconds` | app/src/main/java/com/codebox/podcaster/ui/customViews/wave/view/WaveformView.java:305-308 | one column at zoom level z covers 2^z / 2 sample frames: the seconds of `pixels` columns are pixels times the frame size times 2^z / 2, over the sample rate |
| `WaveformViews.WaveformView.SecondsLinear` | app/src/main/java/com/codebox/podcaster/ui/customViews/wave/view/WaveformView.java:305-308 | at every level the conversion is linear: the seconds of a + b columns are the sum of both, and n columns are n times one column |
| `WaveformViews.WaveformView.SecondsMonotone` | app/src/main/java/com/codebox/podcaster/ui/customViews/wave/view/WaveformView.java:305-308 | at every level, with a non-negative frame size, more columns never span fewer seconds |
| `WaveformViews.WaveformView.ZoomOutDoublesSeconds` | app/src/main/java/com/codebox/podcaster/ui/customViews/wave/view/WaveformView.java:305-308 | one level coarser, the same pixels span twice the seconds |
| `WaveformViews.WaveformView.SetParameters` | app/src/main/java/com/codebox/podcaster/ui/customViews/wave/view/WaveformView.java:323-327 | sets the selection and the offset unchecked; the recording, level, cache and markers are unchanged |
| `WaveformViews.WaveformView.SetPlayback` | app/src/main/java/com/codebox/podcaster/ui/customViews/wave/view/WaveformView.java:341-343 | only the playback position changes |
| `WaveformViews.WaveformView.SetFlags` | app/src/main/java/com/codebox/podcaster/ui/customViews/wave/view/WaveformView.java:349-356 | the flags become exactly the set of the given flags' seconds |
| `WaveformViews.WaveformView.RecomputeHeights` | app/src/main/java/com/codebox/podcaster/ui/customViews/wave/view/WaveformView.java:358-364 | only the cache is dropped |
| `WaveformViews.WaveformView.ComputeIntsForThisZoomLevel` | app/src/main/java/com/codebox/podcaster/ui/customViews/wave/view/WaveformView.java:697-704 | the new cache holds each value of the current level times waveMaxHeight / 2 - 1, truncated |
| `WaveformViews.WaveformView.CachedHeightsFit` | app/src/main/java/com/codebox/podcaster/ui/customViews/wave/view/WaveformView.java:697-704 | every cached height lies between 0 and the half height it was computed for |
| `WaveformViews.WaveformView.DrawFlags` | app/src/main/java/com/codebox/podcaster/ui/customViews/wave/view/WaveformView.java:498-524 | the flag columns of the view's flags and offset at one column's worth of seconds |
| `WaveformViews.WaveformView.DrawSelection` | app/src/main/java/com/codebox/podcaster/ui/customViews/wave/view/WaveformView.java:431-450 | the loop marks each visible column as a boundary, selected or plain |
| `WaveformViews.WaveformView.DrawPlaybackLine` | app/src/main/java/com/codebox/podcaster/ui/customViews/wave/view/WaveformView.java:423-429 | the loop yields the playback column, if it is visible |
| `WaveformViews.WaveformView.DrawFrame` | app/src/main/java/com/codebox/podcaster/ui/customViews/wave/view/WaveformView.java:409-414 | the drawing steps produce the labels, flag columns, selection marks and playback column of the given width |
| `WaveformViews.WaveformView.DrawWaveForm` | app/src/main/java/com/codebox/podcaster/ui/customViews/wave/view/WaveformView.java:452-462 | the reads of the cache stay in bounds exactly when the width is not positive or the columns start..start+width-1 are cached columns |
| `WaveformViews.WaveformView.OnDraw` | app/src/main/java/com/codebox/podcaster/ui/customViews/wave/view/WaveformView.java:384-421 | without a recording nothing is drawn; otherwise the cache is filled when empty, and a negative offset with a visible column ends in the index-out-of-bounds throw of `drawWaveForm`; any other redraw produces the frame over the visible width; the view state is unchanged |
| `JavaLang.Div` | app/src/main/java/com/codebox/podcaster/ui/customViews/wave/view/WaveformView.java:490 | integer division truncates toward zero |
| `JavaLang.Rem` | app/src/main/java/com/codebox/podcaster/ui/customViews/wave/view/WaveformView.java:491 | the remainder takes the dividend's sign and completes the division |
| `JavaLang.TruncReal` | app/src/main/java/com/codebox/podcaster/ui/customViews/wave/view/WaveformView.java:702 | the `(int)` cast truncates toward zero |
| `JavaLang.NatToStringRoundTrip` | app/src/main/java/com/codebox/podcaster/ui/customViews/wave/view/WaveformView.java:490-491 | the decimal rendering of a natural number reads back as that number |

## Left out

- Painting is not modelled: lines, bitmaps, gradients (`drawTopBottomGradient`, `initGradientPaint`, `drawWaveformLine`) and where the time labels go in `drawTimeAtStartAndEnd`. A redraw yields a `Frame` value with what it would paint.
- Touch, fling and scale gestures, `onTouchEvent`, the listener interface and `invalidate()` are not modelled; they are UI event plumbing.
- `secondsToFrames`, `secondsToPixels`, `millisecsToPixels` and `pixelsToMillisecs` are not modelled. They round doubles by adding 0.5, and exact reals do not capture that behaviour.
- Doubles are exact reals. The model has no floating-point rounding, and no drift in the per-column `+=` of `drawFlags`.
- The sound file decoder is not part of this model. A recording enters as its frame gains, sample rate and samples per frame.
- Java `int` overflow is not modelled: the doubling of offset and selection in `zoomIn`, and the saturation of the `(int)` cast. Integers are unbounded.
- The geometry of `onDraw` is not modelled. It derives `waveMaxHeight` from the measured height, the density, the text size and the flag height; here `waveMaxHeight` and the measured width are parameters.
- The lines of a redraw that come before `drawWaveForm` throws (the flags, gradient and time labels already painted) are not modelled: a throw yields no frame.
- The density and text size set by `recomputeHeights` are not modelled, because they affect only painting.
- The getters `getZoomLevel`, `getStart`, `getEnd`, `getOffset`, `isInitialized` and `hasSoundFile` are plain field reads.
- WaveformViews.WaveformView.SetZoomLevel: requires a target that is the current level or an existing one, because for any other target the Java loops never terminate.
- LevelPyramid.ComputeDoublesForAllZoomLevels: requires a calibrated range other than zero when the recording has frames. Otherwise the source divides by zero: a frame at the floor gets NaN (0/0) and the others saturate to 0 or 1. For example, gains [0, 0, 1] give heights [NaN, 1, 1]. `SignalConditioner.ShortSilenceHasZeroRange` shows a recording with a zero range, and reals have no NaN.
- SignalConditioner.ConditionSignal: requires a calibrated range other than zero when the recording has frames, for the same reason.
- WaveformViews.WaveformView.SetSoundFile: requires a calibrated range other than zero when the recording has frames, for the same reason.
- WaveformViews.WaveformView.OnDraw: requires a positive sample rate once a recording is loaded. A sound file's rate is always positive, and a zero rate would make `pixelsToSeconds` divide by zero.
- WaveformViews.WaveformView.PixelsToSeconds: requires a loaded recording, because before `setSoundFile` the zoom factor array is null and Java throws `NullPointerException`. It also requires a positive sample rate: a sound file's rate is always positive, and a zero rate would divide by zero.
- WaveformViews.WaveformView.MaxPos: requires a loaded recording, because before `setSoundFile` the length array is null and Java throws `NullPointerException`.
- WaveformViews.WaveformView.ComputeIntsForThisZoomLevel: requires a loaded recording, for the same reason. `onDraw` reaches it only once a recording is loaded.
- Display.TimeStringReadsBack: stated for non-negative times only. Negative times are shown by `Display.NegativeTimeString`.
