/**
 * What one redraw of the waveform computes before painting: the time
 * labels, the number of visible columns, the marking of the selection and
 * of the playback position, the columns that carry a flag, and the integer
 * heights the columns are drawn with.
 */
module Display {
  import JA = JavaLang

  // ---------------------------------------------------------------------------
  // Time labels
  // ---------------------------------------------------------------------------

  /** `M:SS`: the minutes, a colon, and the seconds padded to two characters. */
  function TimeString(time: int): (s: string)
    ensures time >= 0 ==> |s| >= 4 && s[|s| - 3] == ':'
                          && JA.IsDigits(s[..|s| - 3]) && JA.IsDigits(s[|s| - 2..])
  {
    var minutes := JA.IntToString(JA.Div(time, 60));
    var rem := JA.Rem(time, 60);
    var seconds := if rem < 10 then "0" + JA.IntToString(rem) else JA.IntToString(rem);
    minutes + ":" + seconds
  }

  /** A two-character decimal field reads back as its value. */
  lemma TwoDigitField(n: nat)
    requires n < 60
    ensures var f := if n < 10 then "0" + JA.NatToString(n) else JA.NatToString(n);
            |f| == 2 && JA.IsDigits(f) && JA.DigitsValue(f) == n
  {
    JA.NatToStringRoundTrip(n);
    var f := if n < 10 then "0" + JA.NatToString(n) else JA.NatToString(n);
    if n < 10 {
      assert f[..1] == "0";
      assert f[..1][..0] == [];
    } else {
      assert JA.NatToString(n) == JA.NatToString(n / 10) + [JA.Digit(n % 10)];
    }
  }

  /**
   * `s` reads back as `time`: minutes without leading zeros, a colon and a
   * two-digit seconds field below 60, with minutes * 60 + seconds == time.
   */
  predicate ReadsBackAs(s: string, time: int) {
    var c := |s| - 3;
    c >= 1 && s[c] == ':' && JA.IsDigits(s[..c]) && JA.IsDigits(s[c + 1..])
    && JA.DigitsValue(s[..c]) * 60 + JA.DigitsValue(s[c + 1..]) == time
    && JA.DigitsValue(s[c + 1..]) < 60
    && (s[0] == '0' ==> c == 1)
  }

  /** For a non-negative time the label reads back as that time. */
  lemma TimeStringReadsBack(time: int)
    requires time >= 0
    ensures ReadsBackAs(TimeString(time), time)
  {
    var q := JA.Div(time, 60);
    var r := JA.Rem(time, 60);
    TimeStringParts(time);
    var m := JA.NatToString(q);
    var f := if r < 10 then "0" + JA.NatToString(r) else JA.NatToString(r);
    TwoDigitField(r);
    JA.NatToStringRoundTrip(q);
    ColonJoinReadsBack(m, f, q, r);
  }

  /** For a non-negative time neither field carries a sign. */
  lemma TimeStringParts(time: int)
    requires time >= 0
    ensures var q, r := JA.Div(time, 60), JA.Rem(time, 60);
            q >= 0 && 0 <= r < 60 && q * 60 + r == time
            && TimeString(time)
               == JA.NatToString(q) + ":" + (if r < 10 then "0" + JA.NatToString(r) else JA.NatToString(r))
  {
  }

  /**
   * A negative time keeps the signs of truncating division: the remainder
   * -5 is below 10, so it is padded after its sign.
   */
  lemma NegativeTimeString()
    ensures TimeString(-5) == "0:0-5"
  {
    assert JA.Div(-5, 60) == 0 && JA.Rem(-5, 60) == -5;
    assert JA.NatToString(0) == [JA.Digit(0)] == "0";
    assert JA.NatToString(5) == [JA.Digit(5)] == "5";
  }

  /** Minutes and a two-digit field joined by a colon read back as minutes * 60 + seconds. */
  lemma ColonJoinReadsBack(m: string, f: string, q: int, r: int)
    requires |m| >= 1 && JA.IsDigits(m) && JA.DigitsValue(m) == q && (m[0] == '0' ==> |m| == 1)
    requires |f| == 2 && JA.IsDigits(f) && JA.DigitsValue(f) == r && r < 60
    ensures ReadsBackAs(m + ":" + f, q * 60 + r)
  {
    SplitAtColon(m, f);
    var s := m + ":" + f;
    assert s[..|m|] == m && s[|m| + 1..] == f && s[0] == m[0];
  }

  lemma SplitAtColon(m: string, f: string)
    requires |f| == 2
    ensures var s := m + ":" + f;
            |s| - 3 == |m| && s[|m|] == ':' && s[..|m|] == m && s[|m| + 1..] == f
  {
  }

  /**
   * The seconds the two labels show: the start label the second one column
   * past the offset, the end label the second at the last visible column.
   */
  function LabelSeconds(offset: int, onePixelInSecs: real, width: int): (int, int) {
    SecondsPast(offset as real * onePixelInSecs, onePixelInSecs, onePixelInSecs * width as real)
  }

  /** The whole seconds one step and one span past a start time. */
  function SecondsPast(start: real, step: real, span: real): (int, int) {
    (JA.TruncReal(start + step), JA.TruncReal(start + span))
  }

  function TimeLabels(offset: int, onePixelInSecs: real, width: int): (labels: (string, string)) {
    var secs := LabelSeconds(offset, onePixelInSecs, width);
    (TimeString(secs.0), TimeString(secs.1))
  }

  /** With a non-negative offset and step and at least one column, the start label is never later. */
  lemma TimeLabelsInOrder(offset: int, onePixelInSecs: real, width: int)
    requires offset >= 0 && onePixelInSecs >= 0.0 && width >= 1
    ensures var secs := LabelSeconds(offset, onePixelInSecs, width);
            0 <= secs.0 <= secs.1
  {
    StepProducts(offset, onePixelInSecs, width);
    LabelsOrdered(offset as real * onePixelInSecs, onePixelInSecs, onePixelInSecs * width as real);
  }

  /** Past a non-negative start, a shorter span never truncates to a later second. */
  lemma LabelsOrdered(start: real, step: real, span: real)
    requires 0.0 <= start && 0.0 <= step <= span
    ensures var secs := SecondsPast(start, step, span);
            0 <= secs.0 <= secs.1
  {
    JA.TruncMonotone(start + step, start + span);
  }

  lemma StepProducts(offset: int, onePixelInSecs: real, width: int)
    requires offset >= 0 && onePixelInSecs >= 0.0 && width >= 1
    ensures 0.0 <= offset as real * onePixelInSecs
    ensures onePixelInSecs <= onePixelInSecs * width as real
  {
    assert onePixelInSecs * width as real - onePixelInSecs == onePixelInSecs * (width - 1) as real;
  }

  // ---------------------------------------------------------------------------
  // Visible columns
  // ---------------------------------------------------------------------------

  /** `min(length - offset, measuredWidth)`: how many columns a redraw covers. */
  function VisibleWidth(length: int, offset: int, measuredWidth: int): (width: int)
    ensures width <= measuredWidth && width <= length - offset
    ensures width == measuredWidth || width == length - offset
  {
    var width := length - offset;
    if width > measuredWidth then measuredWidth else width
  }

  /**
   * With a non-negative offset every visible column reads a cached height
   * that exists, and an offset at or past the end shows no column.
   */
  lemma VisibleColumnsInBounds(length: int, offset: int, measuredWidth: int)
    requires offset >= 0
    ensures var width := VisibleWidth(length, offset, measuredWidth);
            width >= 1 ==> 0 <= offset && offset + (width - 1) < length
    ensures offset >= length ==> VisibleWidth(length, offset, measuredWidth) <= 0
  {
  }

  /** The visible columns fill the view whenever enough columns lie past the offset. */
  lemma VisibleWidthFillsView(length: int, offset: int, measuredWidth: int)
    requires length - offset >= measuredWidth
    ensures VisibleWidth(length, offset, measuredWidth) == measuredWidth
  {
  }

  // ---------------------------------------------------------------------------
  // Selection and playback columns
  // ---------------------------------------------------------------------------

  /** How `drawSelection` paints a column. */
  datatype ColumnMark = Plain | Boundary | Selected

  predicate IsBoundary(point: int, selectionStart: int, selectionEnd: int) {
    point == selectionStart || point == selectionEnd
  }

  predicate IsSelected(point: int, selectionStart: int, selectionEnd: int) {
    selectionStart < point < selectionEnd
  }

  /** A column is never painted both as a boundary and as selected. */
  lemma MarksExclusive(point: int, selectionStart: int, selectionEnd: int)
    ensures !(IsBoundary(point, selectionStart, selectionEnd)
              && IsSelected(point, selectionStart, selectionEnd))
  {
  }

  function MarkAt(point: int, selectionStart: int, selectionEnd: int): ColumnMark {
    if IsBoundary(point, selectionStart, selectionEnd) then Boundary
    else if IsSelected(point, selectionStart, selectionEnd) then Selected
    else Plain
  }

  /** The marks of the `width` columns starting at column `start`. */
  function SelectionMarks(width: nat, start: int, selectionStart: int, selectionEnd: int): (marks: seq<ColumnMark>)
    ensures |marks| == width
  {
    seq(width, i requires 0 <= i < width => MarkAt(start + i, selectionStart, selectionEnd))
  }

  lemma SelectionMarksAppend(width: nat, start: int, selectionStart: int, selectionEnd: int)
    ensures SelectionMarks(width + 1, start, selectionStart, selectionEnd)
            == SelectionMarks(width, start, selectionStart, selectionEnd)
               + [MarkAt(start + width, selectionStart, selectionEnd)]
  {
  }

  function CountMark(marks: seq<ColumnMark>, m: ColumnMark): nat {
    if |marks| == 0 then 0
    else CountMark(marks[..|marks| - 1], m) + (if marks[|marks| - 1] == m then 1 else 0)
  }

  function Max(a: int, b: int): int {
    if a >= b then a else b
  }

  function Min(a: int, b: int): int {
    if a <= b then a else b
  }

  /** 1 when `p` lies among the `width` columns starting at `start`. */
  function Shown(p: int, start: int, width: nat): nat {
    if start <= p < start + width then 1 else 0
  }

  lemma SelectionMarksLast(width: nat, start: int, selectionStart: int, selectionEnd: int, m: ColumnMark)
    requires width > 0
    ensures CountMark(SelectionMarks(width, start, selectionStart, selectionEnd), m)
            == CountMark(SelectionMarks(width - 1, start, selectionStart, selectionEnd), m)
               + (if MarkAt(start + width - 1, selectionStart, selectionEnd) == m then 1 else 0)
  {
    var marks := SelectionMarks(width, start, selectionStart, selectionEnd);
    assert marks[..width - 1] == SelectionMarks(width - 1, start, selectionStart, selectionEnd);
  }

  /**
   * Among the columns start .. start + width - 1, the selected ones are
   * exactly those strictly between the bounds.
   */
  lemma {:induction false} SelectedCount(width: nat, start: int, selectionStart: int, selectionEnd: int)
    ensures CountMark(SelectionMarks(width, start, selectionStart, selectionEnd), Selected)
            == Max(0, Min(start + width, selectionEnd) - Max(start, selectionStart + 1))
    decreases width
  {
    if width > 0 {
      SelectedCount(width - 1, start, selectionStart, selectionEnd);
      SelectionMarksLast(width, start, selectionStart, selectionEnd, Selected);
    }
  }

  /**
   * Among the columns start .. start + width - 1, the boundary ones are the
   * bounds that are shown (one column when both bounds coincide).
   */
  lemma {:induction false} BoundaryCount(width: nat, start: int, selectionStart: int, selectionEnd: int)
    ensures CountMark(SelectionMarks(width, start, selectionStart, selectionEnd), Boundary)
            == Shown(selectionStart, start, width)
               + (if selectionEnd != selectionStart then Shown(selectionEnd, start, width) else 0)
    decreases width
  {
    if width > 0 {
      BoundaryCount(width - 1, start, selectionStart, selectionEnd);
      SelectionMarksLast(width, start, selectionStart, selectionEnd, Boundary);
    }
  }

  /** A selection that fits in the view shows both bounds and every column between them. */
  lemma WholeSelectionVisible(width: nat, start: int, selectionStart: int, selectionEnd: int)
    requires start <= selectionStart < selectionEnd < start + width
    ensures CountMark(SelectionMarks(width, start, selectionStart, selectionEnd), Selected)
            == selectionEnd - selectionStart - 1
    ensures CountMark(SelectionMarks(width, start, selectionStart, selectionEnd), Boundary) == 2
  {
    SelectedCount(width, start, selectionStart, selectionEnd);
    BoundaryCount(width, start, selectionStart, selectionEnd);
  }

  /** The columns `drawPlaybackLine` paints: the playback position, when it is visible. */
  function PlaybackColumns(width: int, start: int, playbackPos: int): (columns: seq<int>)
    ensures forall c :: c in columns <==> 0 <= c < width && c + start == playbackPos
    ensures |columns| <= 1
  {
    if 0 <= playbackPos - start < width then [playbackPos - start] else []
  }

  // ---------------------------------------------------------------------------
  // Flag columns
  // ---------------------------------------------------------------------------

  /**
   * The seconds accumulated after `i` columns: the offset's seconds plus
   * one column's worth per column, added one column at a time as
   * `drawFlags` adds them.
   */
  function Elapsed(offset: int, onePixelInSecs: real, i: nat): real {
    if i == 0 then offset as real * onePixelInSecs
    else Elapsed(offset, onePixelInSecs, i - 1) + onePixelInSecs
  }

  /** Adding one column's worth `i` times adds `i` columns' worth. */
  lemma {:induction false} ElapsedIsLinear(offset: int, onePixelInSecs: real, i: nat)
    ensures Elapsed(offset, onePixelInSecs, i) == (offset + i) as real * onePixelInSecs
  {
    if i > 0 {
      ElapsedIsLinear(offset, onePixelInSecs, i - 1);
      assert (offset + i) as real * onePixelInSecs
             == (offset + i - 1) as real * onePixelInSecs + onePixelInSecs;
    }
  }

  /** With a non-negative step, the accumulated seconds never go back. */
  lemma {:induction false} ElapsedGrows(offset: int, onePixelInSecs: real, i: nat, j: nat)
    requires onePixelInSecs >= 0.0 && i <= j
    ensures Elapsed(offset, onePixelInSecs, i) <= Elapsed(offset, onePixelInSecs, j)
    decreases j - i
  {
    if i < j {
      ElapsedGrows(offset, onePixelInSecs, i, j - 1);
    }
  }

  /** `(int)` of the seconds accumulated at the right edge of column `i`. */
  function SecondsAt(offset: int, onePixelInSecs: real, i: nat): int {
    JA.TruncReal(Elapsed(offset, onePixelInSecs, i))
  }

  /**
   * The scan of `drawFlags` from column `i` on, where `last` is the second
   * that last drew a flag (or the second at the offset): a column draws a
   * flag when its second differs from `last` and is flagged.
   */
  function FlagScan(flags: set<int>, offset: int, onePixelInSecs: real, width: int, i: nat, last: int): seq<int>
    decreases width - i
  {
    if i >= width then []
    else
      var integerSecs := SecondsAt(offset, onePixelInSecs, i + 1);
      if integerSecs != last && integerSecs in flags then
        [i + 1] + FlagScan(flags, offset, onePixelInSecs, width, i + 1, integerSecs)
      else
        FlagScan(flags, offset, onePixelInSecs, width, i + 1, last)
  }

  /** The columns that carry a flag; none when the flags are unset or empty. */
  function FlagColumns(flags: JA.Nullable<set<int>>, offset: int, onePixelInSecs: real, width: int): seq<int> {
    if flags.Null? || flags.value == {} then []
    else FlagScan(flags.value, offset, onePixelInSecs, width, 0, SecondsAt(offset, onePixelInSecs, 0))
  }

  /**
   * The loop of `drawFlags`: accumulates one column's worth of seconds per
   * column and remembers the second that last drew a flag.
   */
  method ScanFlags(flags: JA.Nullable<set<int>>, offset: int, onePixelInSecs: real, width: int)
    returns (columns: seq<int>)
    ensures columns == FlagColumns(flags, offset, onePixelInSecs, width)
  {
    var fractionalSecs := offset as real * onePixelInSecs;
    var lastIntegerSecs := JA.TruncReal(fractionalSecs);
    var i: nat := 0;
    columns := [];
    if flags.NonNull? && flags.value != {} {
      var flagSet := flags.value;
      ghost var all := FlagScan(flagSet, offset, onePixelInSecs, width, 0, lastIntegerSecs);
      while i < width
        invariant fractionalSecs == Elapsed(offset, onePixelInSecs, i)
        invariant columns + FlagScan(flagSet, offset, onePixelInSecs, width, i, lastIntegerSecs) == all
        decreases width - i
      {
        ghost var rest := FlagScan(flagSet, offset, onePixelInSecs, width, i, lastIntegerSecs);
        i := i + 1;
        fractionalSecs := fractionalSecs + onePixelInSecs;
        var integerSecs := JA.TruncReal(fractionalSecs);
        if integerSecs != lastIntegerSecs && integerSecs in flagSet {
          lastIntegerSecs := integerSecs;
          assert rest == [i] + FlagScan(flagSet, offset, onePixelInSecs, width, i, lastIntegerSecs);
          assert columns + rest == (columns + [i]) + FlagScan(flagSet, offset, onePixelInSecs, width, i, lastIntegerSecs);
          columns := columns + [i];
        }
      }
    }
  }

  /** Column `c` is the first column whose second is a flagged one. */
  predicate FirstColumnOfFlaggedSecond(flags: set<int>, offset: int, onePixelInSecs: real, c: int) {
    c >= 1
    && SecondsAt(offset, onePixelInSecs, c) in flags
    && SecondsAt(offset, onePixelInSecs, c) != SecondsAt(offset, onePixelInSecs, c - 1)
  }

  lemma SecondsMonotone(offset: int, onePixelInSecs: real, i: nat, j: nat)
    requires onePixelInSecs >= 0.0 && i <= j
    ensures SecondsAt(offset, onePixelInSecs, i) <= SecondsAt(offset, onePixelInSecs, j)
  {
    ElapsedGrows(offset, onePixelInSecs, i, j);
    JA.TruncMonotone(Elapsed(offset, onePixelInSecs, i), Elapsed(offset, onePixelInSecs, j));
  }

  /**
   * The scan's invariant: `last` is never past the current second, and when
   * it lags behind, the current second is not flagged.
   */
  predicate ScanInvariant(flags: set<int>, offset: int, onePixelInSecs: real, i: nat, last: int) {
    last <= SecondsAt(offset, onePixelInSecs, i)
    && (last != SecondsAt(offset, onePixelInSecs, i) ==> SecondsAt(offset, onePixelInSecs, i) !in flags)
  }

  lemma {:induction false} FlagScanFires(flags: set<int>, offset: int, onePixelInSecs: real, width: int, i: nat, last: int)
    requires onePixelInSecs >= 0.0
    requires ScanInvariant(flags, offset, onePixelInSecs, i, last)
    ensures forall c :: c in FlagScan(flags, offset, onePixelInSecs, width, i, last) <==>
              i < c <= width && FirstColumnOfFlaggedSecond(flags, offset, onePixelInSecs, c)
    decreases width - i
  {
    if i < width {
      var secs := SecondsAt(offset, onePixelInSecs, i + 1);
      SecondsMonotone(offset, onePixelInSecs, i, i + 1);
      assert i + 1 - 1 == i;
      if secs != last && secs in flags {
        FlagScanFires(flags, offset, onePixelInSecs, width, i + 1, secs);
      } else {
        FlagScanFires(flags, offset, onePixelInSecs, width, i + 1, last);
      }
    }
  }

  /**
   * With a non-negative step per column, a column carries a flag exactly
   * when it is among columns 1 .. width and is the first column of a
   * flagged second. So no flagged second is drawn twice, even when another
   * second lies between.
   */
  lemma FlagColumnsAreFirstColumns(flags: set<int>, offset: int, onePixelInSecs: real, width: int)
    requires onePixelInSecs >= 0.0 && flags != {}
    ensures forall c :: c in FlagColumns(JA.NonNull(flags), offset, onePixelInSecs, width) <==>
              1 <= c <= width && FirstColumnOfFlaggedSecond(flags, offset, onePixelInSecs, c)
  {
    FlagScanFires(flags, offset, onePixelInSecs, width, 0, SecondsAt(offset, onePixelInSecs, 0));
  }

  /** The columns lie in lo + 1 .. hi and come in increasing order. */
  predicate IncreasingWithin(cs: seq<int>, lo: int, hi: int) {
    (forall k :: 0 <= k < |cs| ==> lo < cs[k] <= hi)
    && (forall a, b :: 0 <= a < b < |cs| ==> cs[a] < cs[b])
  }

  /** The flag columns come in increasing order, so each is drawn once. */
  lemma {:induction false} FlagScanIncreasing(flags: set<int>, offset: int, onePixelInSecs: real, width: int, i: nat, last: int)
    ensures IncreasingWithin(FlagScan(flags, offset, onePixelInSecs, width, i, last), i, width)
    decreases width - i
  {
    if i < width {
      var secs := SecondsAt(offset, onePixelInSecs, i + 1);
      if secs != last && secs in flags {
        FlagScanIncreasing(flags, offset, onePixelInSecs, width, i + 1, secs);
        var tail := FlagScan(flags, offset, onePixelInSecs, width, i + 1, secs);
        var cs := [i + 1] + tail;
        assert FlagScan(flags, offset, onePixelInSecs, width, i, last) == cs;
        assert forall k :: 1 <= k < |cs| ==> cs[k] == tail[k - 1];
      } else {
        FlagScanIncreasing(flags, offset, onePixelInSecs, width, i + 1, last);
      }
    }
  }

  // ---------------------------------------------------------------------------
  // Integer heights
  // ---------------------------------------------------------------------------

  /** `(int) (value * halfHeight)`. */
  function RenderAt(value: real, halfHeight: int): int {
    JA.TruncReal(value * halfHeight as real)
  }

  /** The integer height of every value of a level. */
  function Rendered(values: seq<real>, halfHeight: int): (heights: seq<int>)
    ensures |heights| == |values|
  {
    seq(|values|, i requires 0 <= i < |values| => RenderAt(values[i], halfHeight))
  }

  /**
   * For values in [0, 1] and a non-negative half height, each integer height
   * lies in [0, halfHeight] and is the scaled value truncated, not rounded.
   */
  lemma RenderedHeights(values: seq<real>, halfHeight: int)
    requires halfHeight >= 0
    requires forall i :: 0 <= i < |values| ==> 0.0 <= values[i] <= 1.0
    ensures forall i :: 0 <= i < |values| ==>
              0 <= Rendered(values, halfHeight)[i] <= halfHeight
    ensures forall i :: 0 <= i < |values| ==>
              Rendered(values, halfHeight)[i] as real <= values[i] * halfHeight as real
              < Rendered(values, halfHeight)[i] as real + 1.0
  {
    forall i | 0 <= i < |values|
      ensures 0 <= Rendered(values, halfHeight)[i] <= halfHeight
      ensures Rendered(values, halfHeight)[i] as real <= values[i] * halfHeight as real
              < Rendered(values, halfHeight)[i] as real + 1.0
    {
      RenderedAt(values, halfHeight, i);
    }
  }

  lemma RenderedAt(values: seq<real>, halfHeight: int, i: int)
    requires halfHeight >= 0 && 0 <= i < |values| && 0.0 <= values[i] <= 1.0
    ensures 0 <= Rendered(values, halfHeight)[i] <= halfHeight
    ensures Rendered(values, halfHeight)[i] as real <= values[i] * halfHeight as real
            < Rendered(values, halfHeight)[i] as real + 1.0
  {
    var v := values[i];
    var h := halfHeight as real;
    UnitTimesHalfHeight(v, h);
    var n := JA.TruncReal(v * h);
    assert n as real <= h;
    assert Rendered(values, halfHeight)[i] == n;
  }

  /** Louder values are never drawn shorter. */
  lemma RenderedMonotone(values: seq<real>, halfHeight: int, i: int, j: int)
    requires halfHeight >= 0 && 0 <= i < |values| && 0 <= j < |values| && values[i] <= values[j]
    ensures Rendered(values, halfHeight)[i] <= Rendered(values, halfHeight)[j]
  {
    var h := halfHeight as real;
    var x := values[i];
    var y := values[j];
    assert y * h - x * h == (y - x) * h;
    JA.TruncMonotone(x * h, y * h);
    assert Rendered(values, halfHeight)[i] == RenderAt(x, halfHeight);
    assert Rendered(values, halfHeight)[j] == RenderAt(y, halfHeight);
  }

  lemma UnitTimesHalfHeight(v: real, h: real)
    requires 0.0 <= v <= 1.0 && h >= 0.0
    ensures 0.0 <= v * h <= h
  {
    assert h - v * h == (1.0 - v) * h;
  }

  /** The height 0.99 of a column 10 pixels high is drawn 9 high: truncation, not rounding. */
  lemma RenderedTruncates()
    ensures Rendered([0.99], 10) == [9]
  {
    assert 0.99 * 10 as real == 9.9;
  }
}
