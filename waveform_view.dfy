/**
 * The waveform view: the recording's zoom pyramid, the viewport, the
 * playback position, the flags and the cache of integer heights, with the
 * operations that change them and the redraw that reads them.
 */
module WaveformViews {
  import JA = JavaLang
  import SC = SignalConditioner
  import LP = LevelPyramid
  import VP = Viewport
  import D = Display

  /** A flag set while recording, in whole seconds after the start. */
  datatype Flag = Flag(secondsAfterRecording: int)

  /** What one redraw works out before it paints anything. */
  datatype Frame = Frame(
    width: int,
    timeLabels: (string, string),
    flagColumns: seq<int>,
    marks: seq<D.ColumnMark>,
    playbackColumns: seq<int>)

  /**
   * How a redraw ends: nothing to draw without a recording, a frame, or the
   * index-out-of-bounds exception `drawWaveForm` throws when it reads a
   * column before the start of the cache.
   */
  datatype Redraw = NoRecording | Drawn(frame: Frame) | IndexOutOfBounds

  class WaveformView {
    var hasSoundFile: bool
    var initialized: bool
    var sampleRate: int
    var samplesPerFrame: int
    /** The lengths, zoom factors and values of the zoom levels. */
    var levels: seq<LP.Level>
    var numZoomLevels: int
    var zoomLevel: int
    var offset: int
    var selectionStart: int
    var selectionEnd: int
    var playbackPos: int
    var flags: JA.Nullable<set<int>>
    /** The integer heights of the current zoom level, or null until the next redraw. */
    var heightsAtThisZoomLevel: array?<int>

    /** The normalised frame heights the levels were built from. */
    ghost var frameHeights: seq<real>
    /** The half height the cached integer heights were computed for. */
    ghost var cachedHalfHeight: int

    ghost predicate Valid()
      reads this, heightsAtThisZoomLevel
    {
      hasSoundFile == initialized
      && (!initialized ==>
            numZoomLevels == 0 && zoomLevel == 0 && heightsAtThisZoomLevel == null)
      && (initialized ==>
            numZoomLevels == LP.NumZoomLevels && 0 <= zoomLevel < numZoomLevels
            && RecordingLevels(levels, frameHeights))
      && (heightsAtThisZoomLevel != null ==>
            initialized
            && heightsAtThisZoomLevel[..] == D.Rendered(levels[zoomLevel].values, cachedHalfHeight))
    }

    /**
     * The levels are the pyramid of heights in [0, 1], and each level has a
     * positive zoom factor and one value per column.
     */
    static ghost predicate RecordingLevels(levels: seq<LP.Level>, frameHeights: seq<real>) {
      |levels| == LP.NumZoomLevels && levels == LP.Pyramid(frameHeights)
      && LP.InUnitRange(frameHeights)
      && forall z :: 0 <= z < |levels| ==>
           levels[z].zoomFactor > 0.0 && |levels[z].values| == levels[z].length
    }

    /** The pyramid of any recording whose calibrated range is not zero is well formed. */
    static lemma LevelsOfRecording(frameGains: seq<int>)
      requires SC.HeightsDefined(frameGains)
      ensures var heights := SC.NormalizedHeights(frameGains);
              RecordingLevels(LP.Pyramid(heights), heights)
    {
      var heights := SC.NormalizedHeights(frameGains);
      SC.NormalizedHeightsInUnitRange(frameGains);
      assert LP.InUnitRange(heights);
      LP.PyramidWellFormed(heights);
    }

    /** The viewport part of the state. */
    function State(): VP.ViewState
      reads this
    {
      VP.ViewState(zoomLevel, offset, selectionStart, selectionEnd)
    }

    /** Nothing about the loaded recording changed. */
    twostate predicate RecordingUnchanged()
      reads this
    {
      hasSoundFile == old(hasSoundFile) && initialized == old(initialized)
      && sampleRate == old(sampleRate) && samplesPerFrame == old(samplesPerFrame)
      && levels == old(levels) && numZoomLevels == old(numZoomLevels)
      && frameHeights == old(frameHeights)
    }

    /** Neither the playback position nor the flags changed. */
    twostate predicate MarkersUnchanged()
      reads this
    {
      playbackPos == old(playbackPos) && flags == old(flags)
    }

    constructor ()
      ensures Valid() && !hasSoundFile && !initialized
      ensures State() == VP.ViewState(0, 0, 0, 0)
      ensures numZoomLevels == 0 && playbackPos == -1
      ensures flags == JA.Null && heightsAtThisZoomLevel == null
    {
      hasSoundFile := false;
      initialized := false;
      sampleRate := 0;
      samplesPerFrame := 0;
      levels := [];
      numZoomLevels := 0;
      zoomLevel := 0;
      offset := 0;
      selectionStart := 0;
      selectionEnd := 0;
      playbackPos := -1;
      flags := JA.Null;
      heightsAtThisZoomLevel := null;
      frameHeights := [];
      cachedHalfHeight := 0;
    }

    /**
     * Loads a recording: builds the pyramid from its frame gains and picks
     * the starting zoom level. The offset, the selection, the playback
     * position and the flags are left as they were.
     */
    method SetSoundFile(frameGains: seq<int>, fileSampleRate: int, fileSamplesPerFrame: int)
      requires Valid()
      requires SC.HeightsDefined(frameGains)
      modifies this
      ensures Valid() && hasSoundFile && initialized
      ensures sampleRate == fileSampleRate && samplesPerFrame == fileSamplesPerFrame
      ensures frameHeights == SC.NormalizedHeights(frameGains) && levels == LP.Pyramid(frameHeights)
      ensures numZoomLevels == LP.NumZoomLevels
      ensures zoomLevel == LP.InitialZoomLevel(|frameGains|)
      ensures heightsAtThisZoomLevel == null
      ensures offset == old(offset) && selectionStart == old(selectionStart)
              && selectionEnd == old(selectionEnd)
      ensures MarkersUnchanged()
    {
      var newLevels, initialZoom := LP.ComputeDoublesForAllZoomLevels(frameGains);
      ghost var heights := SC.NormalizedHeights(frameGains);
      LevelsOfRecording(frameGains);
      Load(newLevels, heights, initialZoom, fileSampleRate, fileSamplesPerFrame);
    }

    /** The field updates of `setSoundFile` once the levels are built. */
    method Load(newLevels: seq<LP.Level>, ghost heights: seq<real>, initialZoom: nat,
                fileSampleRate: int, fileSamplesPerFrame: int)
      requires RecordingLevels(newLevels, heights) && initialZoom < LP.NumZoomLevels
      modifies this
      ensures Valid() && hasSoundFile && initialized
      ensures sampleRate == fileSampleRate && samplesPerFrame == fileSamplesPerFrame
      ensures frameHeights == heights && levels == newLevels
      ensures numZoomLevels == LP.NumZoomLevels && zoomLevel == initialZoom
      ensures heightsAtThisZoomLevel == null
      ensures offset == old(offset) && selectionStart == old(selectionStart)
              && selectionEnd == old(selectionEnd)
      ensures MarkersUnchanged()
    {
      hasSoundFile := true;
      sampleRate := fileSampleRate;
      samplesPerFrame := fileSamplesPerFrame;
      frameHeights := heights;
      numZoomLevels := LP.NumZoomLevels;
      levels := newLevels;
      zoomLevel := initialZoom;
      initialized := true;
      heightsAtThisZoomLevel := null;
    }

    /** A zoom-in is possible exactly when it would change the level, whatever the width. */
    predicate CanZoomIn(): (b: bool)
      reads this
      ensures forall w: nat :: b <==> VP.ZoomedIn(State(), w).zoomLevel != zoomLevel
    {
      VP.CanZoomIn(State())
    }

    /** A zoom-out is possible exactly when it would change the level, whatever the width. */
    predicate CanZoomOut(): (b: bool)
      reads this
      ensures forall w: nat :: b <==> VP.ZoomedOut(State(), w, numZoomLevels).zoomLevel != zoomLevel
    {
      VP.CanZoomOut(State(), numZoomLevels)
    }

    /** One level finer, when there is one; the cached heights are dropped. */
    method ZoomIn(measuredWidth: nat)
      requires Valid()
      modifies this
      ensures Valid() && RecordingUnchanged() && MarkersUnchanged()
      ensures State() == VP.ZoomedIn(old(State()), measuredWidth)
      ensures heightsAtThisZoomLevel == (if old(CanZoomIn()) then null else old(heightsAtThisZoomLevel))
      ensures cachedHalfHeight == old(cachedHalfHeight)
    {
      if CanZoomIn() {
        zoomLevel := zoomLevel - 1;
        selectionStart := selectionStart * 2;
        selectionEnd := selectionEnd * 2;
        heightsAtThisZoomLevel := null;
        var offsetCenter := offset + measuredWidth / 2;
        offsetCenter := offsetCenter * 2;
        offset := offsetCenter - measuredWidth / 2;
        if offset < 0 {
          offset := 0;
        }
      }
    }

    /** One level coarser, when there is one; the cached heights are dropped. */
    method ZoomOut(measuredWidth: nat)
      requires Valid()
      modifies this
      ensures Valid() && RecordingUnchanged() && MarkersUnchanged()
      ensures State() == VP.ZoomedOut(old(State()), measuredWidth, old(numZoomLevels))
      ensures heightsAtThisZoomLevel == (if old(CanZoomOut()) then null else old(heightsAtThisZoomLevel))
      ensures cachedHalfHeight == old(cachedHalfHeight)
    {
      if CanZoomOut() {
        zoomLevel := zoomLevel + 1;
        selectionStart := JA.Div(selectionStart, 2);
        selectionEnd := JA.Div(selectionEnd, 2);
        var offsetCenter := offset + measuredWidth / 2;
        offsetCenter := JA.Div(offsetCenter, 2);
        offset := offsetCenter - measuredWidth / 2;
        if offset < 0 {
          offset := 0;
        }
        heightsAtThisZoomLevel := null;
      }
    }

    /**
     * Steps in, then out, one level at a time until the target is reached.
     * The Java loops never end for a target that is neither the current
     * level nor an existing one, so such targets are excluded.
     */
    method SetZoomLevel(target: int, measuredWidth: nat)
      requires Valid() && VP.ReachableLevel(State(), numZoomLevels, target)
      modifies this
      ensures Valid() && RecordingUnchanged() && MarkersUnchanged()
      ensures zoomLevel == target
      ensures State() == VP.ZoomedTo(old(State()), measuredWidth, old(numZoomLevels), target)
      ensures heightsAtThisZoomLevel
              == (if old(zoomLevel) == target then old(heightsAtThisZoomLevel) else null)
    {
      ghost var n := numZoomLevels;
      while zoomLevel > target
        invariant Valid() && RecordingUnchanged() && MarkersUnchanged()
        invariant old(zoomLevel) >= target ==> target <= zoomLevel <= old(zoomLevel)
        invariant old(zoomLevel) < target ==> zoomLevel == old(zoomLevel)
        invariant VP.ReachableLevel(State(), n, target)
        invariant VP.ZoomedTo(State(), measuredWidth, n, target)
                  == VP.ZoomedTo(old(State()), measuredWidth, n, target)
        invariant heightsAtThisZoomLevel
                  == (if old(zoomLevel) == zoomLevel then old(heightsAtThisZoomLevel) else null)
        decreases zoomLevel - target
      {
        ZoomIn(measuredWidth);
      }
      while zoomLevel < target
        invariant Valid() && RecordingUnchanged() && MarkersUnchanged()
        invariant VP.ReachableLevel(State(), n, target)
        invariant VP.ZoomedTo(State(), measuredWidth, n, target)
                  == VP.ZoomedTo(old(State()), measuredWidth, n, target)
        invariant zoomLevel <= target
        invariant old(zoomLevel) <= target ==> old(zoomLevel) <= zoomLevel
        invariant old(zoomLevel) > target ==> zoomLevel == target
        invariant heightsAtThisZoomLevel
                  == (if old(zoomLevel) == zoomLevel then old(heightsAtThisZoomLevel) else null)
        decreases target - zoomLevel
      {
        ZoomOut(measuredWidth);
      }
    }

    /** The number of columns at the current zoom level: how far the view can scroll. */
    function MaxPos(): (pos: int)
      reads this, heightsAtThisZoomLevel
      requires Valid() && initialized
      ensures pos == |levels[zoomLevel].values|
      ensures heightsAtThisZoomLevel != null ==> pos == heightsAtThisZoomLevel.Length
    {
      levels[zoomLevel].length
    }

    /** Sets the selection and the offset, unchecked. */
    method SetParameters(start: int, end: int, newOffset: int)
      requires Valid()
      modifies this
      ensures Valid() && RecordingUnchanged() && MarkersUnchanged()
      ensures State() == VP.ViewState(old(zoomLevel), newOffset, start, end)
      ensures heightsAtThisZoomLevel == old(heightsAtThisZoomLevel)
    {
      selectionStart := start;
      selectionEnd := end;
      offset := newOffset;
    }

    method SetPlayback(pos: int)
      requires Valid()
      modifies this
      ensures Valid() && RecordingUnchanged() && State() == old(State())
      ensures playbackPos == pos && flags == old(flags)
      ensures heightsAtThisZoomLevel == old(heightsAtThisZoomLevel)
    {
      playbackPos := pos;
    }

    /** Collapses the flags into the set of their seconds. */
    method SetFlags(flagList: seq<Flag>)
      requires Valid()
      modifies this
      ensures Valid() && RecordingUnchanged() && State() == old(State())
      ensures playbackPos == old(playbackPos)
      ensures flags.NonNull?
      ensures forall s :: s in flags.value <==>
                exists k :: 0 <= k < |flagList| && flagList[k].secondsAfterRecording == s
      ensures heightsAtThisZoomLevel == old(heightsAtThisZoomLevel)
    {
      var seconds: set<int> := {};
      for i := 0 to |flagList|
        invariant forall s :: s in seconds <==>
                    exists k :: 0 <= k < i && flagList[k].secondsAfterRecording == s
      {
        seconds := seconds + {flagList[i].secondsAfterRecording};
      }
      flags := JA.NonNull(seconds);
    }

    /** Drops the cached heights, so the next redraw computes them again. */
    method RecomputeHeights()
      requires Valid()
      modifies this
      ensures Valid() && RecordingUnchanged() && MarkersUnchanged() && State() == old(State())
      ensures heightsAtThisZoomLevel == null
    {
      heightsAtThisZoomLevel := null;
    }

    /** Fills the cache: each value of the current level times `waveMaxHeight / 2 - 1`, truncated. */
    method ComputeIntsForThisZoomLevel(waveMaxHeight: int)
      requires Valid() && initialized
      modifies this
      ensures Valid() && RecordingUnchanged() && MarkersUnchanged() && State() == old(State())
      ensures heightsAtThisZoomLevel != null && fresh(heightsAtThisZoomLevel)
      ensures cachedHalfHeight == JA.Div(waveMaxHeight, 2) - 1
      ensures heightsAtThisZoomLevel[..]
              == D.Rendered(levels[zoomLevel].values, JA.Div(waveMaxHeight, 2) - 1)
    {
      var halfHeight := JA.Div(waveMaxHeight, 2) - 1;
      var level := levels[zoomLevel];
      var heights := new int[level.length];
      for i := 0 to level.length
        modifies heights
        invariant forall k :: 0 <= k < i ==> heights[k] == D.RenderAt(level.values[k], halfHeight)
      {
        heights[i] := JA.TruncReal(level.values[i] * halfHeight as real);
      }
      assert heights[..] == D.Rendered(level.values, halfHeight);
      heightsAtThisZoomLevel := heights;
      cachedHalfHeight := halfHeight;
    }

    /** Cached heights lie between zero and the half height they were computed for. */
    lemma CachedHeightsFit()
      requires Valid() && heightsAtThisZoomLevel != null && cachedHalfHeight >= 0
      ensures forall i :: 0 <= i < heightsAtThisZoomLevel.Length ==>
                0 <= heightsAtThisZoomLevel[i] <= cachedHalfHeight
    {
      LP.PyramidInUnitRange(frameHeights);
      D.RenderedHeights(levels[zoomLevel].values, cachedHalfHeight);
    }

    /** A recording is loaded with a positive sample rate, so the view can convert pixels to seconds. */
    ghost predicate Ready()
      reads this, heightsAtThisZoomLevel
    {
      Valid() && initialized && sampleRate > 0
    }

    /** The seconds that `pixels` columns span at zoom level `z`. */
    function SecondsAtLevel(pixels: int, z: int): real
      reads this, heightsAtThisZoomLevel
      requires Ready() && 0 <= z < LP.NumZoomLevels
    {
      pixels as real * samplesPerFrame as real / (sampleRate as real * levels[z].zoomFactor)
    }

    /**
     * `pixelsToSeconds`: one column at zoom level z covers 2^z / 2 sample
     * frames, so `pixels` columns span that many frames' samples over the
     * sample rate.
     */
    function PixelsToSeconds(pixels: int): (secs: real)
      reads this, heightsAtThisZoomLevel
      requires Ready()
      ensures secs == SecondsAtLevel(pixels, zoomLevel)
      ensures secs == pixels as real * samplesPerFrame as real * (LP.Pow2(zoomLevel) as real / 2.0)
                      / sampleRate as real
      ensures pixels == 0 ==> secs == 0.0
    {
      assert levels == LP.Pyramid(frameHeights);
      SpanAtLevel(frameHeights, zoomLevel, pixels as real * samplesPerFrame as real, sampleRate as real);
      pixels as real * samplesPerFrame as real / (sampleRate as real * levels[zoomLevel].zoomFactor)
    }

    /** At level z of any pyramid, dividing by the rate and the zoom factor scales by 2^z / 2. */
    static lemma SpanAtLevel(h: seq<real>, z: int, n: real, rate: real)
      requires 0 <= z < LP.NumZoomLevels && rate > 0.0
      ensures var factor := LP.Pyramid(h)[z].zoomFactor;
              factor > 0.0 && n / (rate * factor) == n * (LP.Pow2(z) as real / 2.0) / rate
    {
      LP.PyramidShape(h);
      var factor := LP.Pyramid(h)[z].zoomFactor;
      var inverse := LP.Pow2(z) as real / 2.0;
      if z == 0 {
        assert LP.Pow2(0) == 1;
      } else if z == 1 {
        assert LP.Pow2(1) == 2;
      } else if z == 2 {
        assert LP.Pow2(2) == 4;
      } else if z == 3 {
        assert LP.Pow2(3) == 8;
      } else {
        assert LP.Pow2(4) == 16;
      }
      assert factor * inverse == 1.0;
      SpanOverRate(n, rate, factor, inverse);
    }

    /** Dividing by a rate times a factor, then multiplying by the rate, multiplies by the factor's inverse. */
    static lemma SpanOverRate(n: real, rate: real, factor: real, inverse: real)
      requires rate > 0.0 && factor * inverse == 1.0
      ensures n / (rate * factor) == n * inverse / rate
    {
      assert factor != 0.0;
      assert n / (rate * factor) == n / factor / rate;
      assert n / factor == n * inverse;
    }


    /** The columns per sample frame at level `z` are positive. */
    lemma LevelRatePositive(z: int)
      requires Ready() && 0 <= z < LP.NumZoomLevels
      ensures sampleRate as real * levels[z].zoomFactor > 0.0
    {
      MulPositive(sampleRate as real, levels[z].zoomFactor);
    }

    /**
     * The conversion is linear at every level: the seconds of two spans add
     * up, and any span is that many times the seconds of one column.
     */
    lemma SecondsLinear(a: int, b: int, z: int)
      requires Ready() && 0 <= z < LP.NumZoomLevels
      ensures SecondsAtLevel(a + b, z) == SecondsAtLevel(a, z) + SecondsAtLevel(b, z)
      ensures SecondsAtLevel(a, z) == a as real * SecondsAtLevel(1, z)
    {
      LevelRatePositive(z);
      QuotientLinear(a, b, samplesPerFrame as real, sampleRate as real * levels[z].zoomFactor);
    }

    static lemma QuotientLinear(a: int, b: int, f: real, d: real)
      requires d > 0.0
      ensures (a + b) as real * f / d == a as real * f / d + b as real * f / d
      ensures a as real * f / d == a as real * (1 as real * f / d)
    {
      assert (a + b) as real * f == a as real * f + b as real * f;
    }

    /** With a non-negative frame size, more columns never span fewer seconds, at every level. */
    lemma SecondsMonotone(a: int, b: int, z: int)
      requires Ready() && 0 <= z < LP.NumZoomLevels && samplesPerFrame >= 0 && a <= b
      ensures SecondsAtLevel(a, z) <= SecondsAtLevel(b, z)
    {
      LevelRatePositive(z);
      QuotientMonotone(a as real, b as real, samplesPerFrame as real,
                       sampleRate as real * levels[z].zoomFactor);
    }

    static lemma QuotientMonotone(a: real, b: real, f: real, d: real)
      requires d > 0.0 && f >= 0.0 && a <= b
      ensures a * f / d <= b * f / d
    {
      assert b * f - a * f == (b - a) * f;
      assert b * f / d - a * f / d == (b * f - a * f) / d;
    }

    /** One zoom step out doubles the seconds a span of columns covers. */
    lemma ZoomOutDoublesSeconds(pixels: int, z: int)
      requires Ready() && 0 <= z < LP.NumZoomLevels - 1
      ensures SecondsAtLevel(pixels, z + 1) == 2.0 * SecondsAtLevel(pixels, z)
    {
      LP.ZoomFactorHalves(frameHeights, z);
      HalvedFactorDoubles(pixels as real * samplesPerFrame as real, sampleRate as real,
                          levels[z].zoomFactor);
    }

    /** Halving the factor of a positive divisor doubles the quotient. */
    static lemma HalvedFactorDoubles(n: real, rate: real, factor: real)
      requires rate > 0.0 && factor > 0.0
      ensures n / (rate * (factor / 2.0)) == 2.0 * (n / (rate * factor))
    {
      MulPositive(rate, factor);
      var d := rate * factor;
      assert rate * (factor / 2.0) == d / 2.0;
      assert n / (d / 2.0) == 2.0 * (n / d);
    }

    static lemma MulPositive(a: real, b: real)
      requires a > 0.0 && b > 0.0
      ensures a * b > 0.0
    {
    }

    /** The columns `drawFlags` puts a flag on, over exact real seconds. */
    method DrawFlags(width: int) returns (columns: seq<int>)
      requires Ready()
      ensures columns == D.FlagColumns(flags, offset, PixelsToSeconds(1), width)
    {
      var onePixelInSecs := PixelsToSeconds(1);
      columns := D.ScanFlags(flags, offset, onePixelInSecs, width);
    }

    /** How `drawSelection` marks each of the `width` columns from `start`. */
    method DrawSelection(width: int, start: int) returns (marks: seq<D.ColumnMark>)
      ensures marks == D.SelectionMarks(if width > 0 then width else 0, start, selectionStart, selectionEnd)
    {
      marks := [];
      for i := 0 to (if width > 0 then width else 0)
        invariant marks == D.SelectionMarks(i, start, selectionStart, selectionEnd)
      {
        var point := i + start;
        var mark := D.Plain;
        if point == selectionStart || point == selectionEnd {
          mark := D.Boundary;
        }
        if point > selectionStart && point < selectionEnd {
          mark := D.Selected;
        }
        D.SelectionMarksAppend(i, start, selectionStart, selectionEnd);
        marks := marks + [mark];
      }
    }

    /** The columns `drawPlaybackLine` paints. */
    method DrawPlaybackLine(width: int, start: int) returns (columns: seq<int>)
      ensures columns == D.PlaybackColumns(width, start, playbackPos)
    {
      columns := [];
      var i := 0;
      while i < width
        invariant 0 <= i || width <= 0
        invariant columns == D.PlaybackColumns(if i < width then i else width, start, playbackPos)
        decreases width - i
      {
        if i + start == playbackPos {
          columns := columns + [i];
        }
        i := i + 1;
      }
    }

    /** The frame a redraw works out from the current state. */
    function ExpectedFrame(measuredWidth: nat): Frame
      reads this, heightsAtThisZoomLevel
      requires Ready()
    {
      FrameAt(D.VisibleWidth(|levels[zoomLevel].values|, offset, measuredWidth))
    }

    /** What a redraw over `width` columns from the offset works out. */
    function FrameAt(width: int): Frame
      reads this, heightsAtThisZoomLevel
      requires Ready()
    {
      var onePixelInSecs := PixelsToSeconds(1);
      Frame(width,
            D.TimeLabels(offset, onePixelInSecs, width),
            D.FlagColumns(flags, offset, onePixelInSecs, width),
            D.SelectionMarks(if width > 0 then width else 0, offset, selectionStart, selectionEnd),
            D.PlaybackColumns(width, offset, playbackPos))
    }

    /**
     * A redraw: nothing without a recording; otherwise fills the cache when
     * it is empty and works out the visible width, the time labels, the
     * flag columns, the selection marks and the playback column. A negative
     * offset with a visible column makes `drawWaveForm` read before the
     * start of the cache, and the redraw ends with that exception.
     */
    method OnDraw(measuredWidth: nat, waveMaxHeight: int) returns (r: Redraw)
      requires Valid() && (initialized ==> sampleRate > 0)
      modifies this
      ensures Valid() && RecordingUnchanged() && MarkersUnchanged() && State() == old(State())
      ensures !hasSoundFile ==> r == NoRecording && heightsAtThisZoomLevel == old(heightsAtThisZoomLevel)
      ensures hasSoundFile ==> heightsAtThisZoomLevel != null
      ensures old(heightsAtThisZoomLevel) != null ==> heightsAtThisZoomLevel == old(heightsAtThisZoomLevel)
      ensures hasSoundFile && old(heightsAtThisZoomLevel) == null ==>
                heightsAtThisZoomLevel[..]
                == D.Rendered(levels[zoomLevel].values, JA.Div(waveMaxHeight, 2) - 1)
      ensures hasSoundFile ==>
                r == (if offset < 0 && D.VisibleWidth(MaxPos(), offset, measuredWidth) >= 1
                      then IndexOutOfBounds
                      else Drawn(ExpectedFrame(measuredWidth)))
    {
      if !hasSoundFile {
        return NoRecording;
      }
      if heightsAtThisZoomLevel == null {
        ComputeIntsForThisZoomLevel(waveMaxHeight);
      }
      var start := offset;
      assert heightsAtThisZoomLevel.Length == |levels[zoomLevel].values| by {
        assert |heightsAtThisZoomLevel[..]| == heightsAtThisZoomLevel.Length;
      }
      var width := heightsAtThisZoomLevel.Length - start;
      if width > measuredWidth {
        width := measuredWidth;
      }
      assert width == D.VisibleWidth(|levels[zoomLevel].values|, offset, measuredWidth);
      var inBounds := DrawWaveForm(start, width);
      if !inBounds {
        return IndexOutOfBounds;
      }
      var f := DrawFrame(width);
      r := Drawn(f);
    }

    /**
     * The reads `drawWaveForm` makes of the cache, column by column: false
     * at the first column outside it, where Java throws.
     */
    method DrawWaveForm(start: int, width: int) returns (inBounds: bool)
      requires heightsAtThisZoomLevel != null
      ensures inBounds <==> width <= 0 || (0 <= start && start + width <= heightsAtThisZoomLevel.Length)
    {
      var i := 0;
      while i < width
        invariant 0 <= i
        invariant i == 0 || (0 <= start && start + i <= heightsAtThisZoomLevel.Length)
        decreases width - i
      {
        if start + i < 0 || start + i >= heightsAtThisZoomLevel.Length {
          return false;
        }
        i := i + 1;
      }
      return true;
    }

    /** The drawing steps of a redraw over `width` columns: flags, labels, selection, playback line. */
    method DrawFrame(width: int) returns (frame: Frame)
      requires Ready()
      ensures frame == FrameAt(width)
    {
      var start := offset;
      var onePixelInSecs := PixelsToSeconds(1);
      var flagColumns := DrawFlags(width);
      var labels := D.TimeLabels(offset, onePixelInSecs, width);
      var marks := DrawSelection(width, start);
      var playbackColumns := DrawPlaybackLine(width, start);
      frame := Frame(width, labels, flagColumns, marks, playbackColumns);
    }
  }

  /**
   * Loading a recording without frames: nothing is divided, every level is
   * empty, the view starts at the finest level and there is nothing to scroll.
   */
  method LoadEmptyRecording(view: WaveformView, sampleRate: int, samplesPerFrame: int)
    requires view.Valid()
    modifies view
    ensures view.Valid() && view.hasSoundFile && view.initialized
    ensures view.zoomLevel == 0 && view.MaxPos() == 0
    ensures forall z :: 0 <= z < |view.levels| ==> view.levels[z].length == 0
  {
    LP.EmptyRecordingPyramid();
    view.SetSoundFile([], sampleRate, samplesPerFrame);
    ghost var p := LP.Pyramid(SC.NormalizedHeights([]));
    assert view.levels == p;
    forall z | 0 <= z < |view.levels|
      ensures view.levels[z].length == 0
    {
      assert p[z].length == 0;
    }
  }
}
