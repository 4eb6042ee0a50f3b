/**
 * The five-level zoom pyramid that the view builds from the normalised
 * frame heights, and the zoom level a freshly loaded recording starts at.
 *
 * Level 0 doubles the frame count by interpolation, level 1 is the heights
 * themselves, and levels 2 to 4 each halve the level before by averaging
 * neighbouring pairs.
 */
module LevelPyramid {
  import SC = SignalConditioner

  /** One zoom level: its column count, its zoom factor and its values. */
  datatype Level = Level(length: nat, zoomFactor: real, values: seq<real>)

  const NumZoomLevels: nat := 5

  predicate InUnitRange(v: seq<real>) {
    forall i :: 0 <= i < |v| ==> 0.0 <= v[i] <= 1.0
  }

  // ---------------------------------------------------------------------------
  // Specification of the levels
  // ---------------------------------------------------------------------------

  /**
   * Column `k` of level 0: odd columns repeat a frame height, even columns
   * interpolate between a frame and the one before it (half the first frame
   * at column 0).
   */
  function UpsampleAt(h: seq<real>, k: int): real
    requires 0 <= k < 2 * |h|
  {
    if k % 2 == 1 then h[k / 2]
    else if k == 0 then 0.5 * h[0]
    else 0.5 * (h[k / 2 - 1] + h[k / 2])
  }

  function Upsampled(h: seq<real>): (v: seq<real>)
    ensures |v| == 2 * |h|
  {
    seq(2 * |h|, k requires 0 <= k < 2 * |h| => UpsampleAt(h, k))
  }

  /** Column `i` of a halved level: the mean of columns 2i and 2i+1 before. */
  function HalveAt(v: seq<real>, i: int): real
    requires 0 <= i < |v| / 2
  {
    0.5 * (v[2 * i] + v[2 * i + 1])
  }

  function Halved(v: seq<real>): (w: seq<real>)
    ensures |w| == |v| / 2
  {
    seq(|v| / 2, i requires 0 <= i < |v| / 2 => HalveAt(v, i))
  }

  function HalvedLevel(l: Level): Level {
    Level(l.length / 2, l.zoomFactor / 2.0, Halved(l.values))
  }

  /** Zoom level `z` built from the heights `h`. */
  function LevelAt(h: seq<real>, z: nat): Level
    decreases z
  {
    if z == 0 then Level(2 * |h|, 2.0, Upsampled(h))
    else if z == 1 then Level(|h|, 1.0, h)
    else HalvedLevel(LevelAt(h, z - 1))
  }

  function Pyramid(h: seq<real>): (p: seq<Level>)
    ensures |p| == NumZoomLevels
  {
    seq(NumZoomLevels, z requires 0 <= z < NumZoomLevels => LevelAt(h, z))
  }

  // ---------------------------------------------------------------------------
  // Shape of the pyramid
  // ---------------------------------------------------------------------------

  /** Every level's recorded length is the length of its values. */
  lemma {:induction false} LevelLengthMatches(h: seq<real>, z: nat)
    ensures |LevelAt(h, z).values| == LevelAt(h, z).length
    decreases z
  {
    if z >= 2 {
      LevelLengthMatches(h, z - 1);
    }
  }

  /**
   * The level lengths are 2N, N, N/2, N/4 and N/8 and the zoom factors are
   * 2, 1, 1/2, 1/4 and 1/8; every level holds as many values as its length.
   */
  lemma PyramidShape(h: seq<real>)
    ensures var p := Pyramid(h);
            var n := |h|;
            p[0].length == 2 * n && p[1].length == n && p[2].length == n / 2
            && p[3].length == n / 4 && p[4].length == n / 8
    ensures var p := Pyramid(h);
            p[0].zoomFactor == 2.0 && p[1].zoomFactor == 1.0 && p[2].zoomFactor == 0.5
            && p[3].zoomFactor == 0.25 && p[4].zoomFactor == 0.125
    ensures forall z :: 0 <= z < NumZoomLevels ==>
              |Pyramid(h)[z].values| == Pyramid(h)[z].length
  {
    var n := |h|;
    DivDiv(n, 2);
    DivDiv(n, 4);
    forall z | 0 <= z < NumZoomLevels
      ensures |Pyramid(h)[z].values| == Pyramid(h)[z].length
    {
      LevelLengthMatches(h, z);
    }
  }

  /** Every level has a positive zoom factor and holds as many values as its length. */
  lemma PyramidWellFormed(h: seq<real>)
    ensures forall z :: 0 <= z < NumZoomLevels ==>
              Pyramid(h)[z].zoomFactor > 0.0 && |Pyramid(h)[z].values| == Pyramid(h)[z].length
  {
    PyramidShape(h);
  }

  /** Each level is twice as coarse as the one before: its zoom factor is half. */
  lemma ZoomFactorHalves(h: seq<real>, z: int)
    requires 0 <= z < NumZoomLevels - 1
    ensures Pyramid(h)[z + 1].zoomFactor == Pyramid(h)[z].zoomFactor / 2.0
  {
    PyramidShape(h);
  }

  /** Halving twice in integer arithmetic is dividing by the product. */
  lemma DivDiv(n: nat, m: nat)
    requires m > 0
    ensures n / m / 2 == n / (2 * m)
  {
    var q := n / m;
    var r := n % m;
    assert n == q * m + r;
    var k := q / 2;
    assert q == 2 * k + q % 2;
    assert n == k * (2 * m) + ((q % 2) * m + r);
    DivUnique(n, 2 * m, k, (q % 2) * m + r);
  }

  lemma DivUnique(n: int, d: int, k: int, r: int)
    requires d > 0 && 0 <= r < d && n == k * d + r
    ensures n / d == k
  {
    var q := n / d;
    assert n == q * d + n % d;
    assert (k - q) * d == n % d - r;
    if q < k {
      MulAtLeast(k - q, d);
    } else if q > k {
      MulAtLeast(q - k, d);
    }
  }

  lemma MulAtLeast(a: int, d: int)
    requires a >= 1 && d > 0
    ensures a * d >= d
  {
    assert a * d == (a - 1) * d + d;
  }

  // ---------------------------------------------------------------------------
  // Values of the levels
  // ---------------------------------------------------------------------------

  /** Level 1 is the heights themselves. */
  lemma LevelOneIsHeights(h: seq<real>)
    ensures Pyramid(h)[1].values == h && Pyramid(h)[1].length == |h|
  {
  }

  /** The odd columns of a doubled sequence. */
  function OddColumns(v: seq<real>): (w: seq<real>)
    ensures |w| == |v| / 2
  {
    seq(|v| / 2, i requires 0 <= i < |v| / 2 => v[2 * i + 1])
  }

  /** Dropping the interpolated columns of level 0 gives back level 1. */
  lemma LevelZeroInterleavesHeights(h: seq<real>)
    ensures OddColumns(Pyramid(h)[0].values) == Pyramid(h)[1].values
  {
    var v := Upsampled(h);
    assert |OddColumns(v)| == |h|;
    forall i | 0 <= i < |h|
      ensures OddColumns(v)[i] == h[i]
    {
      assert (2 * i + 1) % 2 == 1 && (2 * i + 1) / 2 == i;
    }
  }

  /**
   * Every interpolated column of level 0 lies between the two frame heights
   * around it; column 0 lies between zero and the first height.
   */
  lemma LevelZeroInterpolates(h: seq<real>)
    ensures |h| > 0 ==> 0.0 <= Upsampled(h)[0] <= h[0] || h[0] <= Upsampled(h)[0] <= 0.0
    ensures forall i :: 1 <= i < |h| ==>
              (h[i - 1] <= Upsampled(h)[2 * i] <= h[i] || h[i] <= Upsampled(h)[2 * i] <= h[i - 1])
  {
    var v := Upsampled(h);
    forall i | 1 <= i < |h|
      ensures h[i - 1] <= v[2 * i] <= h[i] || h[i] <= v[2 * i] <= h[i - 1]
    {
      assert (2 * i) % 2 == 0 && (2 * i) / 2 == i;
      assert v[2 * i] == 0.5 * (h[i - 1] + h[i]);
    }
  }

  /** A trailing odd column is dropped by halving. */
  lemma HalvingDropsTrailingColumn(v: seq<real>)
    requires |v| % 2 == 1
    ensures Halved(v) == Halved(v[..|v| - 1])
  {
  }

  /** The sum of a sequence of reals. */
  function Sum(s: seq<real>): real {
    if |s| == 0 then 0.0 else Sum(s[..|s| - 1]) + s[|s| - 1]
  }

  lemma {:induction false} SumAppend(a: seq<real>, b: seq<real>)
    ensures Sum(a + b) == Sum(a) + Sum(b)
    decreases |b|
  {
    if |b| == 0 {
      assert a + b == a;
    } else {
      var b' := b[..|b| - 1];
      assert (a + b)[..|a + b| - 1] == a + b';
      SumAppend(a, b');
    }
  }

  lemma SumSplit(h: seq<real>, x: int, y: int, z: int)
    requires 0 <= x <= y <= z <= |h|
    ensures Sum(h[x..z]) == Sum(h[x..y]) + Sum(h[y..z])
  {
    assert h[x..z] == h[x..y] + h[y..z];
    SumAppend(h[x..y], h[y..z]);
  }

  function Pow2(k: nat): (p: nat)
    ensures p >= 1
  {
    if k == 0 then 1 else 2 * Pow2(k - 1)
  }

  lemma MeanOfMeans(a: real, b: real, m: real)
    requires m > 0.0
    ensures 0.5 * (a / m + b / m) == (a + b) / (2.0 * m)
  {
  }

  /** The mean of block `i` of `m` heights: `h[i * m]` .. `h[(i + 1) * m - 1]`. */
  function BlockMean(h: seq<real>, m: nat, i: nat): real
    requires m >= 1 && (i + 1) * m <= |h|
  {
    Sum(h[i * m..(i + 1) * m]) / m as real
  }

  /** `v` holds the means of the consecutive blocks of `m` heights of `h`. */
  predicate IsBlockMean(h: seq<real>, m: nat, v: seq<real>) {
    m >= 1 && |v| == |h| / m
    && forall i: nat :: i < |v| ==> (i + 1) * m <= |h| && v[i] == BlockMean(h, m, i)
  }

  /** Averaging neighbouring block means gives the means of blocks twice as long. */
  lemma HalvedBlockMean(h: seq<real>, m: nat, w: seq<real>)
    requires IsBlockMean(h, m, w)
    ensures IsBlockMean(h, 2 * m, Halved(w))
  {
    var v := Halved(w);
    DivDiv(|h|, m);
    forall i: nat | i < |v|
      ensures (i + 1) * (2 * m) <= |h| && v[i] == BlockMean(h, 2 * m, i)
    {
      HalvedBlockAt(h, m, w, i);
    }
  }

  lemma HalvedBlockAt(h: seq<real>, m: nat, w: seq<real>, i: nat)
    requires IsBlockMean(h, m, w) && i < |w| / 2
    ensures (i + 1) * (2 * m) <= |h|
    ensures Halved(w)[i] == BlockMean(h, 2 * m, i)
  {
    var j := 2 * i + 1;
    assert j < |w|;
    assert (j + 1) * m <= |h|;
    BlockIndices(i, m);
    MergeBlocks(h, m, i);
    assert Halved(w)[i] == 0.5 * (w[2 * i] + w[j]);
  }

  /** Two neighbouring blocks of `m` make one block of `2 * m`. */
  lemma MergeBlocks(h: seq<real>, m: nat, i: nat)
    requires m >= 1 && (2 * i + 2) * m <= |h|
    ensures (i + 1) * (2 * m) <= |h|
    ensures 0.5 * (BlockMean(h, m, 2 * i) + BlockMean(h, m, 2 * i + 1)) == BlockMean(h, 2 * m, i)
  {
    BlockIndices(i, m);
    var x := i * (2 * m);
    BlockMeanFrom(h, m, 2 * i, x);
    BlockMeanFrom(h, m, 2 * i + 1, x + m);
    BlockMeanFrom(h, 2 * m, i, x);
    var a := Sum(h[x..x + m]);
    var b := Sum(h[x + m..x + 2 * m]);
    SumSplit(h, x, x + m, x + 2 * m);
    MeanOfMeans(a, b, m as real);
  }

  /** Block `i` starts at `x` when `x == i * m`. */
  lemma BlockMeanFrom(h: seq<real>, m: nat, i: nat, x: int)
    requires m >= 1 && (i + 1) * m <= |h| && x == i * m
    ensures 0 <= x && x + m <= |h|
    ensures BlockMean(h, m, i) == Sum(h[x..x + m]) / m as real
  {
    assert (i + 1) * m == x + m;
  }

  /** A block of one height is that height. */
  lemma BlockOfOne(h: seq<real>, i: nat)
    requires i < |h|
    ensures (i + 1) * 1 <= |h| && BlockMean(h, 1, i) == h[i]
  {
    BlockMeanFrom(h, 1, i, i);
    assert h[i..i + 1] == [h[i]];
    assert [h[i]][..0] == [];
  }

  lemma BlockIndices(i: int, m: int)
    ensures i * (2 * m) == (2 * i) * m
    ensures i * (2 * m) + m == (2 * i + 1) * m
    ensures i * (2 * m) + 2 * m == (2 * i + 1 + 1) * m == (i + 1) * (2 * m) == (2 * i + 2) * m
  {
  }

  /**
   * Level z >= 1 is the block mean of the heights: column i of level z is
   * the mean of the 2^(z-1) heights starting at frame i * 2^(z-1), and the
   * level has exactly as many columns as there are whole blocks.
   */
  lemma {:induction false} LevelIsBlockMean(h: seq<real>, z: nat)
    requires z >= 1
    ensures IsBlockMean(h, Pow2(z - 1), LevelAt(h, z).values)
    decreases z
  {
    if z == 1 {
      forall i: nat | i < |h|
        ensures (i + 1) * 1 <= |h| && h[i] == BlockMean(h, 1, i)
      {
        BlockOfOne(h, i);
      }
    } else {
      LevelIsBlockMean(h, z - 1);
      HalvedBlockMean(h, Pow2(z - 2), LevelAt(h, z - 1).values);
    }
  }

  lemma HalvedInUnitRange(v: seq<real>)
    requires InUnitRange(v)
    ensures InUnitRange(Halved(v))
  {
    forall i | 0 <= i < |v| / 2
      ensures 0.0 <= Halved(v)[i] <= 1.0
    {
      assert Halved(v)[i] == 0.5 * (v[2 * i] + v[2 * i + 1]);
    }
  }

  lemma UpsampledInUnitRange(h: seq<real>)
    requires InUnitRange(h)
    ensures InUnitRange(Upsampled(h))
  {
    forall k | 0 <= k < 2 * |h|
      ensures 0.0 <= Upsampled(h)[k] <= 1.0
    {
      assert Upsampled(h)[k] == UpsampleAt(h, k);
    }
  }

  lemma {:induction false} LevelInUnitRange(h: seq<real>, z: nat)
    requires InUnitRange(h)
    ensures InUnitRange(LevelAt(h, z).values)
    decreases z
  {
    if z == 0 {
      UpsampledInUnitRange(h);
    } else if z >= 2 {
      LevelInUnitRange(h, z - 1);
      HalvedInUnitRange(LevelAt(h, z - 1).values);
    }
  }

  /** Every value of every level stays in [0, 1] when the heights do. */
  lemma PyramidInUnitRange(h: seq<real>)
    requires InUnitRange(h)
    ensures forall z :: 0 <= z < NumZoomLevels ==> InUnitRange(Pyramid(h)[z].values)
  {
    forall z | 0 <= z < NumZoomLevels
      ensures InUnitRange(Pyramid(h)[z].values)
    {
      LevelInUnitRange(h, z);
    }
  }

  // ---------------------------------------------------------------------------
  // Building the levels
  // ---------------------------------------------------------------------------

  /** Fills the five levels with the source's loops. */
  method BuildLevels(heights: seq<real>) returns (levels: seq<Level>)
    ensures levels == Pyramid(heights)
  {
    var numFrames := |heights|;

    // Two columns per frame: the frame's height after the midpoint with the previous one
    var v0 := UpsampleHeights(heights);
    var level0 := Level(2 * numFrames, 2.0, v0);

    // One column per frame, copied
    var v1 := new real[numFrames];
    for i := 0 to numFrames
      invariant forall k :: 0 <= k < i ==> v1[k] == heights[k]
    {
      v1[i] := heights[i];
    }
    assert v1[..] == heights;

    levels := [level0, Level(numFrames, 1.0, v1[..])];

    // Each remaining level averages pairs of columns of the one before
    for j := 2 to NumZoomLevels
      invariant |levels| == j
      invariant forall z :: 0 <= z < j ==> levels[z] == LevelAt(heights, z)
    {
      var prev := levels[j - 1];
      LevelLengthMatches(heights, j - 1);
      var a := HalveValues(prev.values);
      levels := levels + [Level(prev.length / 2, prev.zoomFactor / 2.0, a)];
    }
  }

  /** The loop that fills level 0: a repeated and an interpolated column per frame. */
  method UpsampleHeights(heights: seq<real>) returns (values: seq<real>)
    ensures values == Upsampled(heights)
  {
    var numFrames := |heights|;
    var v0 := new real[2 * numFrames];
    if numFrames > 0 {
      v0[0] := 0.5 * heights[0];
      v0[1] := heights[0];
    }
    var i := 1;
    while i < numFrames
      invariant 1 <= i && (numFrames > 0 ==> i <= numFrames)
      invariant forall k :: 0 <= k < 2 * i && k < 2 * numFrames ==> v0[k] == UpsampleAt(heights, k)
    {
      v0[2 * i] := 0.5 * (heights[i - 1] + heights[i]);
      v0[2 * i + 1] := heights[i];
      i := i + 1;
    }
    values := v0[..];
  }

  /** The loop that fills a halved level: the mean of each pair of columns. */
  method HalveValues(prev: seq<real>) returns (values: seq<real>)
    ensures values == Halved(prev)
  {
    var len := |prev| / 2;
    var a := new real[len];
    for i := 0 to len
      invariant forall k :: 0 <= k < i ==> a[k] == HalveAt(prev, k)
    {
      a[i] := 0.5 * (prev[2 * i] + prev[2 * i + 1]);
    }
    values := a[..];
  }

  // ---------------------------------------------------------------------------
  // Initial zoom level
  // ---------------------------------------------------------------------------

  /** Long recordings start further zoomed out. */
  function InitialZoomLevel(numFrames: int): (z: nat)
    ensures z < NumZoomLevels - 1
  {
    if numFrames > 5000 then 3
    else if numFrames > 1000 then 2
    else if numFrames > 300 then 1
    else 0
  }

  /** A longer recording never starts at a finer zoom level. */
  lemma InitialZoomLevelMonotone(n: int, n': int)
    requires n <= n'
    ensures InitialZoomLevel(n) <= InitialZoomLevel(n')
  {
  }

  /**
   * The level a recording starts at is more than 300 columns wide once the
   * recording has more than 300 frames, and at most 2500 columns wide for
   * recordings up to 5000 frames.
   */
  lemma InitialLevelLength(h: seq<real>)
    ensures |h| > 300 ==> Pyramid(h)[InitialZoomLevel(|h|)].length > 300
    ensures |h| <= 5000 ==> Pyramid(h)[InitialZoomLevel(|h|)].length <= 2500
  {
    PyramidShape(h);
  }

  // ---------------------------------------------------------------------------
  // The whole build
  // ---------------------------------------------------------------------------

  /**
   * Turns the frame gains of a recording into the five levels and the
   * starting zoom level.
   */
  method ComputeDoublesForAllZoomLevels(frameGains: seq<int>)
    returns (levels: seq<Level>, zoomLevel: nat)
    requires SC.HeightsDefined(frameGains)
    ensures levels == Pyramid(SC.NormalizedHeights(frameGains))
    ensures zoomLevel == InitialZoomLevel(|frameGains|)
  {
    var heights := SC.ConditionSignal(frameGains);
    levels := BuildLevels(heights);
    var numFrames := |frameGains|;
    if numFrames > 5000 {
      zoomLevel := 3;
    } else if numFrames > 1000 {
      zoomLevel := 2;
    } else if numFrames > 300 {
      zoomLevel := 1;
    } else {
      zoomLevel := 0;
    }
  }

  /**
   * For every recording the build accepts, every level value lies in [0, 1]
   * and level 1 has one value per frame.
   */
  lemma RecordingPyramidInUnitRange(frameGains: seq<int>)
    requires SC.HeightsDefined(frameGains)
    ensures var p := Pyramid(SC.NormalizedHeights(frameGains));
            |p[1].values| == |frameGains|
            && forall z :: 0 <= z < NumZoomLevels ==> InUnitRange(p[z].values)
  {
    var h := SC.NormalizedHeights(frameGains);
    var c := SC.Calibrate(frameGains);
    SC.NormalizedInUnitRange(c.smoothed, c.scale, c.minGain, c.maxGain);
    PyramidInUnitRange(h);
  }

  /**
   * A recording without frames builds five empty levels and starts at the
   * finest zoom level.
   */
  lemma EmptyRecordingPyramid()
    ensures SC.HeightsDefined([])
    ensures var p := Pyramid(SC.NormalizedHeights([]));
            forall z :: 0 <= z < NumZoomLevels ==> p[z].length == 0 && p[z].values == []
    ensures InitialZoomLevel(0) == 0
  {
    SC.EmptyRecordingHasNoHeights();
    PyramidShape([]);
  }
}
