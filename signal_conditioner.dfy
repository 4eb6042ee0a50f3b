/**
 * The first half of WaveformView.computeDoublesForAllZoomLevels: it turns the
 * per-frame gains of a recording into normalised heights in [0, 1].
 *
 * Each phase is a method with the source's loops, proved equal to a
 * specification function; lemmas say what those functions mean.
 * Java doubles are modelled as exact reals.
 */
module SignalConditioner {
  import JavaLang

  // ---------------------------------------------------------------------------
  // Smoothing
  // ---------------------------------------------------------------------------

  /**
   * Triangular smoothing with clamped edges: with one or two frames the gains
   * are copied; otherwise the ends average two neighbours and the interior three.
   */
  function SmoothAt(g: seq<int>, i: int): real
    requires 0 <= i < |g|
  {
    if |g| <= 2 then g[i] as real
    else if i == 0 then g[0] as real / 2.0 + g[1] as real / 2.0
    else if i == |g| - 1 then g[|g| - 2] as real / 2.0 + g[|g| - 1] as real / 2.0
    else g[i - 1] as real / 3.0 + g[i] as real / 3.0 + g[i + 1] as real / 3.0
  }

  function Smoothed(g: seq<int>): (s: seq<real>)
    ensures |s| == |g|
  {
    seq(|g|, i requires 0 <= i < |g| => SmoothAt(g, i))
  }

  /** Smoothing is an average: it never leaves the range of the gains. */
  lemma SmoothedWithinGainRange(g: seq<int>, lo: int, hi: int)
    requires forall i :: 0 <= i < |g| ==> lo <= g[i] <= hi
    ensures forall i :: 0 <= i < |g| ==> lo as real <= Smoothed(g)[i] <= hi as real
  {
    forall i | 0 <= i < |g|
      ensures lo as real <= Smoothed(g)[i] <= hi as real
    {
      if |g| > 2 && i == 0 {
        assert lo <= g[1] <= hi;
      } else if |g| > 2 && i == |g| - 1 {
        assert lo <= g[|g| - 2] <= hi;
      } else if |g| > 2 {
        assert lo <= g[i - 1] <= hi && lo <= g[i + 1] <= hi;
      }
    }
  }

  method SmoothGains(frameGains: seq<int>) returns (smoothedGains: seq<real>)
    ensures smoothedGains == Smoothed(frameGains)
  {
    var numFrames := |frameGains|;
    var a := new real[numFrames];
    if numFrames == 1 {
      a[0] := frameGains[0] as real;
    } else if numFrames == 2 {
      a[0] := frameGains[0] as real;
      a[1] := frameGains[1] as real;
    } else if numFrames > 2 {
      a[0] := frameGains[0] as real / 2.0 + frameGains[1] as real / 2.0;
      for i := 1 to numFrames - 1
        invariant a[0] == SmoothAt(frameGains, 0)
        invariant forall k :: 1 <= k < i ==> a[k] == SmoothAt(frameGains, k)
      {
        a[i] := frameGains[i - 1] as real / 3.0 + frameGains[i] as real / 3.0
              + frameGains[i + 1] as real / 3.0;
      }
      a[numFrames - 1] := frameGains[numFrames - 2] as real / 2.0
                        + frameGains[numFrames - 1] as real / 2.0;
    }
    smoothedGains := a[..];
  }

  // ---------------------------------------------------------------------------
  // Pre-scaling into 0..255
  // ---------------------------------------------------------------------------

  /** The running maximum of the smoothed gains, starting from 1.0. */
  function PeakGain(s: seq<real>): (peak: real)
    ensures peak >= 1.0
  {
    if |s| == 0 then 1.0
    else
      var p := PeakGain(s[..|s| - 1]);
      if s[|s| - 1] > p then s[|s| - 1] else p
  }

  /** The peak is the largest smoothed gain, or 1.0 when none exceeds it. */
  lemma {:induction false} PeakGainIsMaximum(s: seq<real>)
    ensures PeakGain(s) >= 1.0
    ensures forall i :: 0 <= i < |s| ==> s[i] <= PeakGain(s)
    ensures PeakGain(s) == 1.0 || exists i :: 0 <= i < |s| && s[i] == PeakGain(s)
  {
    if |s| > 0 {
      var init := s[..|s| - 1];
      PeakGainIsMaximum(init);
      assert forall i :: 0 <= i < |init| ==> s[i] == init[i];
      if PeakGain(init) != 1.0 {
        var j :| 0 <= j < |init| && init[j] == PeakGain(init);
        assert s[j] == PeakGain(init);
      }
    }
  }

  method FindPeakGain(smoothedGains: seq<real>) returns (maxGain: real)
    ensures maxGain == PeakGain(smoothedGains)
  {
    maxGain := 1.0;
    for i := 0 to |smoothedGains|
      invariant maxGain == PeakGain(smoothedGains[..i])
    {
      assert smoothedGains[..i + 1][..i] == smoothedGains[..i];
      if smoothedGains[i] > maxGain {
        maxGain := smoothedGains[i];
      }
    }
    assert smoothedGains[..|smoothedGains|] == smoothedGains;
  }

  /** The factor that brings the peak down to 255 when it lies above. */
  function ScaleFactor(peak: real): real
    requires peak > 0.0
  {
    if peak > 255.0 then 255.0 / peak else 1.0
  }

  /** A gain after the pre-scale. */
  function ScaledGain(x: real, peak: real): real
    requires peak > 0.0
  {
    x * ScaleFactor(peak)
  }

  lemma ScaledGainFits(x: real, peak: real)
    requires 0.0 <= x <= peak && peak >= 1.0
    ensures 0.0 < ScaleFactor(peak) <= 1.0
    ensures 0.0 <= ScaledGain(x, peak) <= 255.0
  {
    if peak > 255.0 {
      var t := x / peak;
      DivideMonotone(x, peak, peak);
      DivideMonotone(0.0, x, peak);
      assert peak / peak == 1.0;
      assert x * (255.0 / peak) == 255.0 * t;
    }
  }

  /** After pre-scaling, every non-negative smoothed gain lies in [0, 255]. */
  lemma ScaledGainsFitByteRange(s: seq<real>)
    ensures PeakGain(s) > 0.0
    ensures 0.0 < ScaleFactor(PeakGain(s)) <= 1.0
    ensures forall i :: 0 <= i < |s| && 0.0 <= s[i] ==> 0.0 <= ScaledGain(s[i], PeakGain(s)) <= 255.0
  {
    var peak := PeakGain(s);
    ScaledGainFits(0.0, peak);
    forall i | 0 <= i < |s| && 0.0 <= s[i]
      ensures 0.0 <= ScaledGain(s[i], peak) <= 255.0
    {
      PeakGainBoundsGain(s, i);
      ScaledGainFits(s[i], peak);
    }
  }

  lemma PeakGainBoundsGain(s: seq<real>, i: int)
    requires 0 <= i < |s|
    ensures s[i] <= PeakGain(s)
  {
    PeakGainIsMaximum(s);
  }

  // ---------------------------------------------------------------------------
  // Histogram
  // ---------------------------------------------------------------------------

  /** `(int) (gain * scaleFactor)`, clamped into a bin index. */
  function BinIndex(gain: real, scale: real): (b: int)
    ensures 0 <= b <= 255
    ensures 0.0 <= gain * scale < 256.0 ==> b as real <= gain * scale < b as real + 1.0
    ensures gain * scale < 0.0 ==> b == 0
    ensures gain * scale >= 256.0 ==> b == 255
  {
    var t := JavaLang.TruncReal(gain * scale);
    if t < 0 then 0 else if t > 255 then 255 else t
  }

  function Bins(s: seq<real>, scale: real): (bins: seq<int>)
    ensures |bins| == |s| && InByteRange(bins)
  {
    seq(|s|, i requires 0 <= i < |s| => BinIndex(s[i], scale))
  }

  /**
   * For a non-negative gain no larger than the peak, the pre-scale makes
   * both clamps idle: the bin index is the integer part of the scaled gain.
   */
  lemma BinIsFloorOfScaledGain(x: real, peak: real)
    requires 0.0 <= x <= peak && peak >= 1.0
    ensures var b := BinIndex(x, ScaleFactor(peak));
            b as real <= ScaledGain(x, peak) < b as real + 1.0
  {
    ScaledGainFits(x, peak);
  }

  predicate InByteRange(bins: seq<int>) {
    forall i :: 0 <= i < |bins| ==> 0 <= bins[i] <= 255
  }

  /** How many entries of `xs` equal `b`. */
  function Count(xs: seq<int>, b: int): nat {
    if |xs| == 0 then 0
    else Count(xs[..|xs| - 1], b) + (if xs[|xs| - 1] == b then 1 else 0)
  }

  /** The 256-bin histogram of the bin indices. */
  function Histogram(bins: seq<int>): (hist: seq<int>)
    ensures |hist| == 256
  {
    seq(256, b requires 0 <= b < 256 => Count(bins, b))
  }

  /** The largest bin index used, starting from 0. */
  function TopBin(bins: seq<int>): (top: int)
    ensures InByteRange(bins) ==> 0 <= top <= 255
  {
    if |bins| == 0 then 0
    else
      var t := TopBin(bins[..|bins| - 1]);
      if bins[|bins| - 1] > t then bins[|bins| - 1] else t
  }

  /** `h[lo] + ... + h[hi - 1]`. */
  function SumRange(h: seq<int>, lo: int, hi: int): int
    requires 0 <= lo <= hi <= |h|
    decreases hi - lo
  {
    if lo == hi then 0 else SumRange(h, lo, hi - 1) + h[hi - 1]
  }

  lemma {:induction false} SumRangeSplitFirst(h: seq<int>, lo: int, hi: int)
    requires 0 <= lo < hi <= |h|
    ensures SumRange(h, lo, hi) == h[lo] + SumRange(h, lo + 1, hi)
    decreases hi - lo
  {
    if lo + 1 < hi {
      SumRangeSplitFirst(h, lo, hi - 1);
    }
  }

  /** Adding one entry equal to `x` adds one to bin `x` and leaves the others. */
  lemma CountAppend(xs: seq<int>, x: int, b: int)
    ensures Count(xs + [x], b) == Count(xs, b) + (if x == b then 1 else 0)
  {
    assert (xs + [x])[..|xs|] == xs;
  }

  lemma {:induction false} SumRangeBump(h1: seq<int>, h2: seq<int>, x: int, k: int)
    requires |h1| == |h2| && 0 <= k <= |h1|
    requires forall b :: 0 <= b < |h1| ==> h2[b] == h1[b] + (if b == x then 1 else 0)
    ensures SumRange(h2, 0, k) == SumRange(h1, 0, k) + (if 0 <= x < k then 1 else 0)
  {
    if k > 0 {
      SumRangeBump(h1, h2, x, k - 1);
    }
  }

  lemma {:induction false} SumRangeOfZeros(h: seq<int>, k: int)
    requires 0 <= k <= |h|
    requires forall b :: 0 <= b < |h| ==> h[b] == 0
    ensures SumRange(h, 0, k) == 0
  {
    if k > 0 {
      SumRangeOfZeros(h, k - 1);
    }
  }

  /** The bin counts add up to the number of frames. */
  lemma {:induction false} HistogramTotal(bins: seq<int>)
    requires InByteRange(bins)
    ensures SumRange(Histogram(bins), 0, 256) == |bins|
  {
    if |bins| == 0 {
      SumRangeOfZeros(Histogram(bins), 256);
    } else {
      var init := bins[..|bins| - 1];
      var x := bins[|bins| - 1];
      assert bins == init + [x];
      assert InByteRange(init) by {
        assert forall i :: 0 <= i < |init| ==> init[i] == bins[i];
      }
      HistogramTotal(init);
      forall b | 0 <= b < 256
        ensures Histogram(bins)[b] == Histogram(init)[b] + (if b == x then 1 else 0)
      {
        CountAppend(init, x, b);
      }
      assert 0 <= x <= 255;
      SumRangeBump(Histogram(init), Histogram(bins), x, 256);
      assert SumRange(Histogram(init), 0, 256) == |init|;
      assert SumRange(Histogram(bins), 0, 256) == |init| + 1;
    }
  }

  /** TopBin is the largest index used, and nothing is counted above it. */
  lemma TopBinIsLargestUsed(bins: seq<int>)
    requires InByteRange(bins)
    ensures forall i :: 0 <= i < |bins| ==> bins[i] <= TopBin(bins)
    ensures |bins| > 0 ==> exists i :: 0 <= i < |bins| && bins[i] == TopBin(bins)
    ensures forall b :: TopBin(bins) < b < 256 ==> Histogram(bins)[b] == 0
  {
    TopBinBoundsBins(bins);
    if |bins| > 0 {
      TopBinIsUsed(bins);
    }
    NothingCountedAboveTopBin(bins);
  }

  lemma {:induction false} TopBinBoundsBins(bins: seq<int>)
    ensures forall i :: 0 <= i < |bins| ==> bins[i] <= TopBin(bins)
  {
    if |bins| > 0 {
      var init := bins[..|bins| - 1];
      TopBinBoundsBins(init);
      assert forall i :: 0 <= i < |init| ==> init[i] == bins[i];
    }
  }

  lemma {:induction false} TopBinIsUsed(bins: seq<int>)
    requires |bins| > 0 && InByteRange(bins)
    ensures exists i :: 0 <= i < |bins| && bins[i] == TopBin(bins)
  {
    var init := bins[..|bins| - 1];
    var x := bins[|bins| - 1];
    if |init| > 0 && x <= TopBin(init) {
      assert InByteRange(init) by {
        assert forall i :: 0 <= i < |init| ==> init[i] == bins[i];
      }
      TopBinIsUsed(init);
      var j :| 0 <= j < |init| && init[j] == TopBin(init);
      assert bins[j] == init[j];
    } else {
      assert bins[|bins| - 1] == TopBin(bins);
    }
  }

  lemma {:induction false} NothingCountedAboveTopBin(bins: seq<int>)
    ensures forall b :: TopBin(bins) < b ==> Count(bins, b) == 0
  {
    if |bins| > 0 {
      NothingCountedAboveTopBin(bins[..|bins| - 1]);
    }
  }

  /** Counting one more frame into bin `x` increments that bin only. */
  lemma HistogramAppend(xs: seq<int>, x: int)
    requires 0 <= x <= 255
    ensures Histogram(xs + [x]) == Histogram(xs)[x := Histogram(xs)[x] + 1]
  {
    forall b | 0 <= b < 256
      ensures Histogram(xs + [x])[b] == Histogram(xs)[x := Histogram(xs)[x] + 1][b]
    {
      CountAppend(xs, x, b);
    }
  }

  method BuildHistogram(smoothedGains: seq<real>, scaleFactor: real)
    returns (gainHist: seq<int>, maxGain: int)
    ensures gainHist == Histogram(Bins(smoothedGains, scaleFactor))
    ensures maxGain == TopBin(Bins(smoothedGains, scaleFactor))
  {
    ghost var bins := Bins(smoothedGains, scaleFactor);
    maxGain := 0;
    var hist := new int[256](_ => 0);
    assert hist[..] == Histogram([]);
    for i := 0 to |smoothedGains|
      invariant hist[..] == Histogram(bins[..i])
      invariant maxGain == TopBin(bins[..i])
    {
      var smoothedGain := JavaLang.TruncReal(smoothedGains[i] * scaleFactor);
      if smoothedGain < 0 {
        smoothedGain := 0;
      }
      if smoothedGain > 255 {
        smoothedGain := 255;
      }
      assert smoothedGain == bins[i];
      assert bins[..i + 1] == bins[..i] + [smoothedGain];
      assert bins[..i + 1][..i] == bins[..i];
      if smoothedGain > maxGain {
        maxGain := smoothedGain;
      }
      HistogramAppend(bins[..i], smoothedGain);
      hist[smoothedGain] := hist[smoothedGain] + 1;
    }
    assert bins[..|smoothedGains|] == bins;
    gainHist := hist[..];
  }

  // ---------------------------------------------------------------------------
  // Calibration walks
  // ---------------------------------------------------------------------------

  /** The upward walk: add bins from 0 until 5% of the frames are counted or 255 is reached. */
  function MinWalk(hist: seq<int>, numFrames: nat, minGain: int, sum: int): int
    requires |hist| == 256 && 0 <= minGain <= 255
    decreases 255 - minGain
  {
    if minGain < 255 && sum < numFrames / 20 then
      MinWalk(hist, numFrames, minGain + 1, sum + hist[minGain])
    else minGain
  }

  function CalibratedMin(hist: seq<int>, numFrames: nat): int
    requires |hist| == 256
  {
    MinWalk(hist, numFrames, 0, 0)
  }

  /** The downward walk: add bins from the top until 1% of the frames are counted or 2 is reached. */
  function MaxWalk(hist: seq<int>, numFrames: nat, maxGain: int, sum: int): int
    requires |hist| == 256 && 0 <= maxGain <= 255
    decreases maxGain
  {
    if maxGain > 2 && sum < numFrames / 100 then
      MaxWalk(hist, numFrames, maxGain - 1, sum + hist[maxGain])
    else maxGain
  }

  function CalibratedMax(hist: seq<int>, numFrames: nat, top: int): int
    requires |hist| == 256 && 0 <= top <= 255
  {
    MaxWalk(hist, numFrames, top, 0)
  }

  /** The frames in bins `k + 1 .. top`. */
  function CountAbove(hist: seq<int>, k: int, top: int): int
    requires |hist| == 256 && 0 <= k <= top <= 255
  {
    SumRange(hist, k + 1, top + 1)
  }

  lemma {:induction false} MinWalkStops(hist: seq<int>, numFrames: nat, m: int)
    requires |hist| == 256 && 0 <= m <= 255
    requires forall k :: 0 <= k < m ==> SumRange(hist, 0, k) < numFrames / 20
    ensures var r := MinWalk(hist, numFrames, m, SumRange(hist, 0, m));
            m <= r <= 255
            && (r == 255 || SumRange(hist, 0, r) >= numFrames / 20)
            && forall k :: 0 <= k < r ==> SumRange(hist, 0, k) < numFrames / 20
    decreases 255 - m
  {
    if m < 255 && SumRange(hist, 0, m) < numFrames / 20 {
      assert SumRange(hist, 0, m + 1) == SumRange(hist, 0, m) + hist[m];
      MinWalkStops(hist, numFrames, m + 1);
    }
  }

  /**
   * The calibrated minimum is the first bin index at which the bins below it
   * hold at least numFrames / 20 frames, or 255 when no index does.
   */
  lemma CalibratedMinIsLowPercentile(hist: seq<int>, numFrames: nat)
    requires |hist| == 256
    ensures var m := CalibratedMin(hist, numFrames);
            0 <= m <= 255
            && (m == 255 || SumRange(hist, 0, m) >= numFrames / 20)
            && forall k :: 0 <= k < m ==> SumRange(hist, 0, k) < numFrames / 20
  {
    MinWalkStops(hist, numFrames, 0);
  }

  lemma {:induction false} MaxWalkStops(hist: seq<int>, numFrames: nat, top: int, m: int)
    requires |hist| == 256 && 0 <= m <= top <= 255
    requires forall k :: m < k <= top ==> CountAbove(hist, k, top) < numFrames / 100
    ensures var r := MaxWalk(hist, numFrames, m, CountAbove(hist, m, top));
            r <= m && (m <= 2 ==> r == m) && (m > 2 ==> r >= 2)
    ensures var r := MaxWalk(hist, numFrames, m, CountAbove(hist, m, top));
            r <= 2 || CountAbove(hist, r, top) >= numFrames / 100
    ensures var r := MaxWalk(hist, numFrames, m, CountAbove(hist, m, top));
            forall k :: r < k <= top ==> CountAbove(hist, k, top) < numFrames / 100
    decreases m
  {
    if m > 2 && CountAbove(hist, m, top) < numFrames / 100 {
      SumRangeSplitFirst(hist, m, top + 1);
      assert CountAbove(hist, m - 1, top) == CountAbove(hist, m, top) + hist[m];
      MaxWalkStops(hist, numFrames, top, m - 1);
    }
  }

  /**
   * The calibrated maximum is the highest index (walking down from the top bin,
   * never below 2) at which the bins above it hold at least numFrames / 100 frames.
   */
  lemma CalibratedMaxIsHighPercentile(hist: seq<int>, numFrames: nat, top: int)
    requires |hist| == 256 && 0 <= top <= 255
    ensures var m := CalibratedMax(hist, numFrames, top);
            m <= top && (top <= 2 ==> m == top) && (top > 2 ==> m >= 2)
            && (m <= 2 || CountAbove(hist, m, top) >= numFrames / 100)
            && forall k :: m < k <= top ==> CountAbove(hist, k, top) < numFrames / 100
  {
    MaxWalkStops(hist, numFrames, top, top);
  }

  method CalibrateMin(gainHist: seq<int>, numFrames: nat) returns (minGain: int)
    requires |gainHist| == 256
    ensures minGain == CalibratedMin(gainHist, numFrames)
    ensures 0 <= minGain <= 255
  {
    minGain := 0;
    var sum := 0;
    while minGain < 255 && sum < numFrames / 20
      invariant 0 <= minGain <= 255
      invariant MinWalk(gainHist, numFrames, minGain, sum) == CalibratedMin(gainHist, numFrames)
      decreases 255 - minGain
    {
      sum := sum + gainHist[minGain];
      minGain := minGain + 1;
    }
  }

  method CalibrateMax(gainHist: seq<int>, numFrames: nat, top: int) returns (maxGain: int)
    requires |gainHist| == 256 && 0 <= top <= 255
    ensures maxGain == CalibratedMax(gainHist, numFrames, top)
    ensures (if top < 2 then top else 2) <= maxGain <= top
  {
    maxGain := top;
    var sum := 0;
    while maxGain > 2 && sum < numFrames / 100
      invariant (if top < 2 then top else 2) <= maxGain <= top
      invariant MaxWalk(gainHist, numFrames, maxGain, sum) == CalibratedMax(gainHist, numFrames, top)
      decreases maxGain
    {
      sum := sum + gainHist[maxGain];
      maxGain := maxGain - 1;
    }
  }

  // ---------------------------------------------------------------------------
  // Normalisation
  // ---------------------------------------------------------------------------

  /** The calibration of a recording: smoothed gains, pre-scale and the two calibrated bins. */
  datatype Calibration = Calibration(smoothed: seq<real>, scale: real, minGain: int, maxGain: int)

  function Calibrate(frameGains: seq<int>): (c: Calibration)
    ensures c.smoothed == Smoothed(frameGains) && |c.smoothed| == |frameGains|
    ensures 0 <= c.minGain <= 255 && 0 <= c.maxGain <= 255
  {
    var s := Smoothed(frameGains);
    PeakGainIsMaximum(s);
    var scale := ScaleFactor(PeakGain(s));
    var bins := Bins(s, scale);
    var hist := Histogram(bins);
    CalibratedMinIsLowPercentile(hist, |frameGains|);
    CalibratedMaxIsHighPercentile(hist, |frameGains|, TopBin(bins));
    Calibration(s, scale, CalibratedMin(hist, |frameGains|),
                CalibratedMax(hist, |frameGains|, TopBin(bins)))
  }

  /** `clamp((x * scale - minGain) / range, 0, 1)` squared. */
  function NormalizedAt(x: real, scale: real, minGain: int, maxGain: int): real
    requires maxGain != minGain
  {
    var value := (x * scale - minGain as real) / (maxGain - minGain) as real;
    var clamped := if value < 0.0 then 0.0 else if value > 1.0 then 1.0 else value;
    clamped * clamped
  }

  /** Normalises every gain; with no gain at all nothing is divided, so any range will do. */
  function Normalized(s: seq<real>, scale: real, minGain: int, maxGain: int): (h: seq<real>)
    requires |s| > 0 ==> maxGain != minGain
    ensures |h| == |s|
  {
    seq(|s|, i requires 0 <= i < |s| => NormalizedAt(s[i], scale, minGain, maxGain))
  }

  /**
   * The heights loop divides by the calibrated range once per frame, so it
   * is defined when the range is not zero or when there is no frame.
   */
  predicate HeightsDefined(frameGains: seq<int>) {
    |frameGains| > 0 ==> Calibrate(frameGains).maxGain != Calibrate(frameGains).minGain
  }

  /** The heights the pipeline computes for a recording. */
  function NormalizedHeights(frameGains: seq<int>): (h: seq<real>)
    requires HeightsDefined(frameGains)
    ensures |h| == |frameGains|
  {
    var c := Calibrate(frameGains);
    Normalized(c.smoothed, c.scale, c.minGain, c.maxGain)
  }

  /** Every height of a recording lies in [0, 1]. */
  lemma NormalizedHeightsInUnitRange(frameGains: seq<int>)
    requires HeightsDefined(frameGains)
    ensures forall i :: 0 <= i < |frameGains| ==> 0.0 <= NormalizedHeights(frameGains)[i] <= 1.0
  {
    var c := Calibrate(frameGains);
    NormalizedInUnitRange(c.smoothed, c.scale, c.minGain, c.maxGain);
  }

  lemma SquareOfUnit(c: real)
    requires 0.0 <= c <= 1.0
    ensures 0.0 <= c * c <= c <= 1.0
  {
  }

  lemma SquareMonotone(c: real, d: real)
    requires 0.0 <= c <= d
    ensures c * c <= d * d
  {
    assert c * c <= c * d <= d * d;
  }

  /** Every normalised height lies in [0, 1]. */
  lemma NormalizedInUnitRange(s: seq<real>, scale: real, minGain: int, maxGain: int)
    requires |s| > 0 ==> maxGain != minGain
    ensures forall i :: 0 <= i < |s| ==> 0.0 <= Normalized(s, scale, minGain, maxGain)[i] <= 1.0
  {
    forall i | 0 <= i < |s|
      ensures 0.0 <= NormalizedAt(s[i], scale, minGain, maxGain) <= 1.0
    {
      var value := (s[i] * scale - minGain as real) / (maxGain - minGain) as real;
      var clamped := if value < 0.0 then 0.0 else if value > 1.0 then 1.0 else value;
      SquareOfUnit(clamped);
    }
  }

  lemma DivideMonotone(a: real, b: real, d: real)
    requires a <= b && d > 0.0
    ensures a / d <= b / d
  {
    assert b / d - a / d == (b - a) / d;
  }

  /**
   * With a positive calibrated range the normalisation keeps the order of the
   * scaled gains: louder frames are never drawn lower.
   */
  lemma NormalizedPreservesOrder(x: real, y: real, scale: real, minGain: int, maxGain: int)
    requires minGain < maxGain && scale > 0.0 && x <= y
    ensures NormalizedAt(x, scale, minGain, maxGain) <= NormalizedAt(y, scale, minGain, maxGain)
  {
    assert x * scale <= y * scale;
    var d := (maxGain - minGain) as real;
    DivideMonotone(x * scale - minGain as real, y * scale - minGain as real, d);
    var vx := (x * scale - minGain as real) / d;
    var vy := (y * scale - minGain as real) / d;
    var cx := if vx < 0.0 then 0.0 else if vx > 1.0 then 1.0 else vx;
    var cy := if vy < 0.0 then 0.0 else if vy > 1.0 then 1.0 else vy;
    SquareMonotone(cx, cy);
  }

  /**
   * With a positive calibrated range, frames at or below the 5% floor are drawn
   * at height 0 and frames at or above the 99% ceiling at height 1.
   */
  lemma NormalizedSaturates(x: real, scale: real, minGain: int, maxGain: int)
    requires minGain < maxGain
    ensures x * scale <= minGain as real ==> NormalizedAt(x, scale, minGain, maxGain) == 0.0
    ensures x * scale >= maxGain as real ==> NormalizedAt(x, scale, minGain, maxGain) == 1.0
  {
    var d := (maxGain - minGain) as real;
    var v := (x * scale - minGain as real) / d;
    if x * scale <= minGain as real {
      DivideMonotone(x * scale - minGain as real, 0.0, d);
    }
    if x * scale >= maxGain as real {
      DivideMonotone(d, x * scale - minGain as real, d);
      assert d / d == 1.0;
    }
  }

  method ComputeHeights(smoothedGains: seq<real>, scaleFactor: real, minGain: int, maxGain: int)
    returns (heights: seq<real>)
    requires |smoothedGains| > 0 ==> maxGain != minGain
    ensures heights == Normalized(smoothedGains, scaleFactor, minGain, maxGain)
  {
    var a := new real[|smoothedGains|];
    var range := (maxGain - minGain) as real;
    for i := 0 to |smoothedGains|
      invariant forall k :: 0 <= k < i ==> a[k] == NormalizedAt(smoothedGains[k], scaleFactor, minGain, maxGain)
    {
      var value := (smoothedGains[i] * scaleFactor - minGain as real) / range;
      if value < 0.0 {
        value := 0.0;
      }
      if value > 1.0 {
        value := 1.0;
      }
      ghost var expected := NormalizedAt(smoothedGains[i], scaleFactor, minGain, maxGain);
      assert value * value == expected;
      a[i] := value * value;
    }
    heights := a[..];
  }

  /**
   * The whole conditioning phase. The source divides by the calibrated range
   * without a guard, so that range must not be zero unless the recording has
   * no frame.
   */
  method ConditionSignal(frameGains: seq<int>) returns (heights: seq<real>)
    requires HeightsDefined(frameGains)
    ensures heights == NormalizedHeights(frameGains)
    ensures |heights| == |frameGains|
    ensures forall i :: 0 <= i < |heights| ==> 0.0 <= heights[i] <= 1.0
  {
    var numFrames := |frameGains|;
    var smoothedGains := SmoothGains(frameGains);
    var peak := FindPeakGain(smoothedGains);
    PeakGainIsMaximum(smoothedGains);
    var scaleFactor := 1.0;
    if peak > 255.0 {
      scaleFactor := 255.0 / peak;
    }
    var gainHist, maxGain := BuildHistogram(smoothedGains, scaleFactor);
    var minGain := CalibrateMin(gainHist, numFrames);
    maxGain := CalibrateMax(gainHist, numFrames, maxGain);
    heights := ComputeHeights(smoothedGains, scaleFactor, minGain, maxGain);
    NormalizedInUnitRange(smoothedGains, scaleFactor, minGain, maxGain);
  }

  // ---------------------------------------------------------------------------
  // Silent recordings
  // ---------------------------------------------------------------------------

  /** A recording of `n` frames of gain 0. */
  function Silence(n: nat): (g: seq<int>)
    ensures |g| == n
  {
    seq(n, _ => 0)
  }

  /** In a sequence holding only `v`, bin `v` counts every element and any other bin none. */
  lemma {:induction false} CountOfConstant(xs: seq<int>, v: int, b: int)
    requires forall i :: 0 <= i < |xs| ==> xs[i] == v
    ensures Count(xs, b) == if b == v then |xs| else 0
  {
    if |xs| > 0 {
      CountOfConstant(xs[..|xs| - 1], v, b);
    }
  }

  lemma SilentBins(n: nat)
    ensures Smoothed(Silence(n)) == seq(n, _ => 0.0)
    ensures PeakGain(Smoothed(Silence(n))) == 1.0
    ensures Bins(Smoothed(Silence(n)), 1.0) == Silence(n)
  {
    var s := Smoothed(Silence(n));
    assert s == seq(n, _ => 0.0);
    PeakGainIsMaximum(s);
    assert Bins(s, 1.0) == Silence(n);
  }

  lemma SilentHistogram(n: nat)
    ensures Histogram(Silence(n)) == seq(256, b => if b == 0 then n else 0)
    ensures TopBin(Silence(n)) == 0
  {
    forall b | 0 <= b < 256
      ensures Histogram(Silence(n))[b] == if b == 0 then n else 0
    {
      CountOfConstant(Silence(n), 0, b);
    }
    TopBinIsLargestUsed(Silence(n));
  }

  /** The calibration of silence: no pre-scale, ceiling 0, floor 1 from 20 frames on. */
  lemma SilentCalibration(n: nat)
    ensures var c := Calibrate(Silence(n));
            c.smoothed == seq(n, _ => 0.0)
            && c.scale == 1.0 && c.maxGain == 0 && c.minGain == (if n >= 20 then 1 else 0)
  {
    SilentBins(n);
    SilentHistogram(n);
    var hist := Histogram(Silence(n));
    assert CalibratedMax(hist, n, 0) == 0;
    if n >= 20 {
      assert MinWalk(hist, n, 1, n) == 1;
      assert CalibratedMin(hist, n) == 1;
    } else {
      assert CalibratedMin(hist, n) == 0;
    }
  }

  /**
   * A silent recording of at least 20 frames is drawn at full height: the
   * 5% walk passes bin 0, the calibrated range becomes -1 and every
   * height (0 - 1) / -1 clamps to 1.
   */
  lemma SilenceOfTwentyFramesIsFullHeight(n: nat)
    requires n >= 20
    ensures Calibrate(Silence(n)).maxGain != Calibrate(Silence(n)).minGain
    ensures NormalizedHeights(Silence(n)) == seq(n, _ => 1.0)
  {
    SilentCalibration(n);
  }

  /**
   * A silent recording of fewer than 20 frames has a calibrated range of zero:
   * the source then divides zero by zero.
   */
  lemma ShortSilenceHasZeroRange(n: nat)
    requires n < 20
    ensures Calibrate(Silence(n)).maxGain == Calibrate(Silence(n)).minGain
    ensures HeightsDefined(Silence(n)) <==> n == 0
  {
    SilentCalibration(n);
  }

  /** A recording without frames calibrates to a zero range, yet has heights: none. */
  lemma EmptyRecordingHasNoHeights()
    ensures Calibrate([]).maxGain == Calibrate([]).minGain
    ensures HeightsDefined([]) && NormalizedHeights([]) == []
  {
    assert Silence(0) == [];
    SilentCalibration(0);
  }

  // ---------------------------------------------------------------------------
  // Loud steady recordings
  // ---------------------------------------------------------------------------

  /** A recording of `n` frames of gain `g`. */
  function Steady(n: nat, g: int): (r: seq<int>)
    ensures |r| == n
  {
    seq(n, _ => g)
  }

  /** Past bins that are all empty, the 5% walk runs up to 255. */
  lemma {:induction false} MinWalkPastEmptyBins(hist: seq<int>, numFrames: nat, m: int)
    requires |hist| == 256 && 0 <= m <= 255 && numFrames / 20 > 0
    requires forall k :: m <= k < 255 ==> hist[k] == 0
    ensures MinWalk(hist, numFrames, m, 0) == 255
    decreases 255 - m
  {
    if m < 255 {
      MinWalkPastEmptyBins(hist, numFrames, m + 1);
    }
  }

  /**
   * A negative range inverts the mapping instead of being guarded: 100 frames
   * of gain 510 all land in bin 255, the 5% walk ends at 255 and the 1% walk
   * stops at 254. The range is -1, and every height (255 - 255) / -1 is 0.
   */
  lemma LoudSteadyRecordingIsFlat()
    ensures Calibrate(Steady(100, 510)).minGain == 255
    ensures Calibrate(Steady(100, 510)).maxGain == 254
    ensures HeightsDefined(Steady(100, 510))
    ensures NormalizedHeights(Steady(100, 510)) == seq(100, _ => 0.0)
  {
    LoudSteadyBins();
    LoudSteadyHistogram();
    var hist := Histogram(Steady(100, 255));
    MinWalkPastEmptyBins(hist, 100, 0);
    assert CalibratedMax(hist, 100, 255) == 254;
    var c := Calibrate(Steady(100, 510));
    assert c.minGain == 255 && c.maxGain == 254 && c.scale == 0.5;
    assert NormalizedAt(510.0, 0.5, 255, 254) == 0.0;
  }

  /** The loud steady recording is not smoothed away, and its pre-scale halves every gain into bin 255. */
  lemma LoudSteadyBins()
    ensures Smoothed(Steady(100, 510)) == seq(100, _ => 510.0)
    ensures PeakGain(Smoothed(Steady(100, 510))) == 510.0 && ScaleFactor(510.0) == 0.5
    ensures Bins(Smoothed(Steady(100, 510)), 0.5) == Steady(100, 255)
  {
    var s := Smoothed(Steady(100, 510));
    assert s == seq(100, _ => 510.0);
    PeakGainIsMaximum(s);
    assert Bins(s, 0.5) == Steady(100, 255);
  }

  /** All 100 frames land in bin 255, the top bin. */
  lemma LoudSteadyHistogram()
    ensures Histogram(Steady(100, 255)) == seq(256, b => if b == 255 then 100 else 0)
    ensures TopBin(Steady(100, 255)) == 255
  {
    var bins := Steady(100, 255);
    forall b | 0 <= b < 256
      ensures Histogram(bins)[b] == if b == 255 then 100 else 0
    {
      CountOfConstant(bins, 255, b);
    }
    TopBinIsLargestUsed(bins);
  }
}
