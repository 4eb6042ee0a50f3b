/**
 * The viewport of the waveform: zoom level, scroll offset and selection,
 * and how zooming in and out moves them. Columns are counted at the
 * current zoom level; one level finer has twice as many columns.
 */
module Viewport {
  import JA = JavaLang

  datatype ViewState = ViewState(zoomLevel: int, offset: int, selectionStart: int, selectionEnd: int)

  predicate CanZoomIn(v: ViewState) {
    v.zoomLevel > 0
  }

  predicate CanZoomOut(v: ViewState, numZoomLevels: int) {
    v.zoomLevel < numZoomLevels - 1
  }

  function ClampAtZero(x: int): int {
    if x < 0 then 0 else x
  }

  /**
   * One step finer: both selection bounds double, and the offset moves so
   * that the column at the centre of the view stays at the centre (never
   * below zero). `width / 2` is Java's division of a non-negative width.
   */
  function ZoomedIn(v: ViewState, width: nat): (r: ViewState)
    ensures CanZoomIn(v) ==> r.zoomLevel == v.zoomLevel - 1 && r.offset >= 0
    ensures !CanZoomIn(v) ==> r == v
  {
    if !CanZoomIn(v) then v
    else
      var offsetCenter := (v.offset + width / 2) * 2;
      ViewState(v.zoomLevel - 1, ClampAtZero(offsetCenter - width / 2),
                v.selectionStart * 2, v.selectionEnd * 2)
  }

  /** One step coarser: bounds and centre halve with Java's truncating division. */
  function ZoomedOut(v: ViewState, width: nat, numZoomLevels: int): (r: ViewState)
    ensures CanZoomOut(v, numZoomLevels) ==> r.zoomLevel == v.zoomLevel + 1 && r.offset >= 0
    ensures !CanZoomOut(v, numZoomLevels) ==> r == v
  {
    if !CanZoomOut(v, numZoomLevels) then v
    else
      var offsetCenter := JA.Div(v.offset + width / 2, 2);
      ViewState(v.zoomLevel + 1, ClampAtZero(offsetCenter - width / 2),
                JA.Div(v.selectionStart, 2), JA.Div(v.selectionEnd, 2))
  }

  /** Neither step leaves the range of zoom levels, and neither makes the offset negative. */
  lemma ZoomStaysInRange(v: ViewState, width: nat, n: int)
    requires 0 <= v.zoomLevel < n
    ensures 0 <= ZoomedIn(v, width).zoomLevel < n
    ensures 0 <= ZoomedOut(v, width, n).zoomLevel < n
    ensures CanZoomIn(v) ==> ZoomedIn(v, width).offset >= 0
    ensures CanZoomOut(v, n) ==> ZoomedOut(v, width, n).offset >= 0
  {
  }

  /**
   * Zooming in keeps the centre: unless the offset had to be clamped, the
   * new centre column is twice the old one.
   */
  lemma ZoomInKeepsCenter(v: ViewState, width: nat)
    requires CanZoomIn(v) && 2 * v.offset + width / 2 >= 0
    ensures ZoomedIn(v, width).offset + width / 2 == 2 * (v.offset + width / 2)
  {
  }

  /** Zooming keeps the selection's bounds in order. */
  lemma ZoomKeepsSelectionOrder(v: ViewState, width: nat, n: int)
    requires v.selectionStart <= v.selectionEnd
    ensures ZoomedIn(v, width).selectionStart <= ZoomedIn(v, width).selectionEnd
    ensures ZoomedOut(v, width, n).selectionStart <= ZoomedOut(v, width, n).selectionEnd
  {
    DivMonotone(v.selectionStart, v.selectionEnd);
  }

  lemma DivMonotone(a: int, b: int)
    requires a <= b
    ensures JA.Div(a, 2) <= JA.Div(b, 2)
  {
  }

  /**
   * Zooming in and back out restores the zoom level and the selection
   * exactly, and restores the offset exactly when it is not negative (a
   * negative offset comes back clamped to zero or above).
   */
  lemma ZoomInThenOut(v: ViewState, width: nat, n: int)
    requires CanZoomIn(v) && v.zoomLevel < n
    ensures var r := ZoomedOut(ZoomedIn(v, width), width, n);
            r.zoomLevel == v.zoomLevel
            && r.selectionStart == v.selectionStart && r.selectionEnd == v.selectionEnd
            && (r.offset == v.offset <==> v.offset >= 0)
  {
    var c := width / 2;
    var u := ZoomedIn(v, width);
    JA.DivOfDouble(v.selectionStart);
    JA.DivOfDouble(v.selectionEnd);
    if 2 * v.offset + c >= 0 {
      assert u.offset == 2 * v.offset + c;
      assert u.offset + c == 2 * (v.offset + c);
      JA.DivOfDouble(v.offset + c);
    } else {
      assert u.offset == 0;
      assert JA.Div(c, 2) <= c;
    }
  }

  /** Zooming in and back out from a non-negative offset gives back the same view. */
  lemma ZoomInThenOutRestores(v: ViewState, width: nat, n: int)
    requires CanZoomIn(v) && v.zoomLevel < n && v.offset >= 0
    ensures ZoomedOut(ZoomedIn(v, width), width, n) == v
  {
    ZoomInThenOut(v, width, n);
  }

  /**
   * Zooming out and back in restores the zoom level, and restores each
   * selection bound exactly when it is even.
   */
  lemma ZoomOutThenIn(v: ViewState, width: nat, n: int)
    requires CanZoomOut(v, n) && v.zoomLevel >= 0
    ensures var r := ZoomedIn(ZoomedOut(v, width, n), width);
            r.zoomLevel == v.zoomLevel
            && (r.selectionStart == v.selectionStart <==> v.selectionStart % 2 == 0)
            && (r.selectionEnd == v.selectionEnd <==> v.selectionEnd % 2 == 0)
  {
    DoubleOfHalf(v.selectionStart);
    DoubleOfHalf(v.selectionEnd);
  }

  /** Doubling Java's half gives back the value exactly when it is even. */
  lemma DoubleOfHalf(a: int)
    ensures JA.Div(a, 2) * 2 == a <==> a % 2 == 0
  {
  }

  // ---------------------------------------------------------------------------
  // setZoomLevel
  // ---------------------------------------------------------------------------

  /**
   * The loops of `setZoomLevel` stop exactly when the target is the current
   * level or a level that exists; otherwise the Java loop never ends.
   */
  predicate ReachableLevel(v: ViewState, numZoomLevels: int, target: int) {
    target == v.zoomLevel || 0 <= target < numZoomLevels
  }

  /** The view after stepping in, or out, until the target level is reached. */
  function ZoomedTo(v: ViewState, width: nat, n: int, target: int): (r: ViewState)
    requires 0 <= v.zoomLevel < n || v.zoomLevel == 0
    requires ReachableLevel(v, n, target)
    ensures r.zoomLevel == target
    decreases if v.zoomLevel > target then v.zoomLevel - target else target - v.zoomLevel
  {
    if v.zoomLevel > target then ZoomedTo(ZoomedIn(v, width), width, n, target)
    else if v.zoomLevel < target then ZoomedTo(ZoomedOut(v, width, n), width, n, target)
    else v
  }

  /** `k` steps in. */
  function ZoomedInTimes(v: ViewState, width: nat, k: nat): ViewState
    decreases k
  {
    if k == 0 then v else ZoomedInTimes(ZoomedIn(v, width), width, k - 1)
  }

  /** `k` steps out. */
  function ZoomedOutTimes(v: ViewState, width: nat, n: int, k: nat): ViewState
    decreases k
  {
    if k == 0 then v else ZoomedOutTimes(ZoomedOut(v, width, n), width, n, k - 1)
  }

  /** Moving to a finer target is that many steps in. */
  lemma {:induction false} ZoomedToFiner(v: ViewState, width: nat, n: int, target: int)
    requires 0 <= target <= v.zoomLevel < n
    ensures ZoomedTo(v, width, n, target) == ZoomedInTimes(v, width, v.zoomLevel - target)
    decreases v.zoomLevel - target
  {
    if v.zoomLevel > target {
      ZoomedToFiner(ZoomedIn(v, width), width, n, target);
    }
  }

  /** Moving to a coarser target is that many steps out. */
  lemma {:induction false} ZoomedToCoarser(v: ViewState, width: nat, n: int, target: int)
    requires 0 <= v.zoomLevel <= target < n
    ensures ZoomedTo(v, width, n, target) == ZoomedOutTimes(v, width, n, target - v.zoomLevel)
    decreases target - v.zoomLevel
  {
    if v.zoomLevel < target {
      ZoomedToCoarser(ZoomedOut(v, width, n), width, n, target);
    }
  }

  lemma {:induction false} ZoomedInTimesLevel(v: ViewState, width: nat, k: nat)
    requires k <= v.zoomLevel
    ensures ZoomedInTimes(v, width, k).zoomLevel == v.zoomLevel - k
    ensures ZoomedInTimes(v, width, k).offset >= 0 || k == 0
    decreases k
  {
    if k > 0 {
      ZoomedInTimesLevel(ZoomedIn(v, width), width, k - 1);
    }
  }

  /** The last of `k` steps out can be taken last. */
  lemma {:induction false} ZoomedOutTimesLast(v: ViewState, width: nat, n: int, k: nat)
    requires k > 0
    ensures ZoomedOutTimes(v, width, n, k) == ZoomedOut(ZoomedOutTimes(v, width, n, k - 1), width, n)
    decreases k
  {
    if k > 1 {
      ZoomedOutTimesLast(ZoomedOut(v, width, n), width, n, k - 1);
    }
  }

  /** `k` steps in followed by `k` steps out restore a view whose offset is not negative. */
  lemma {:induction false} ZoomInOutTimes(v: ViewState, width: nat, n: int, k: nat)
    requires k <= v.zoomLevel < n && v.offset >= 0
    ensures ZoomedOutTimes(ZoomedInTimes(v, width, k), width, n, k) == v
    decreases k
  {
    if k > 0 {
      var u := ZoomedIn(v, width);
      ZoomInOutTimes(u, width, n, k - 1);
      ZoomedOutTimesLast(ZoomedInTimes(u, width, k - 1), width, n, k);
      ZoomInThenOutRestores(v, width, n);
    }
  }

  /**
   * Zooming to a finer level and back to the starting level restores the
   * whole view when the offset is not negative.
   */
  lemma SetZoomLevelRoundTrip(v: ViewState, width: nat, n: int, target: int)
    requires 0 <= target <= v.zoomLevel < n && v.offset >= 0
    ensures ZoomedTo(ZoomedTo(v, width, n, target), width, n, v.zoomLevel) == v
  {
    var k := v.zoomLevel - target;
    ZoomedToFiner(v, width, n, target);
    var u := ZoomedInTimes(v, width, k);
    ZoomedInTimesLevel(v, width, k);
    ZoomedToCoarser(u, width, n, v.zoomLevel);
    ZoomInOutTimes(v, width, n, k);
  }
}
