/**
 * The chart scans of kostock/chart_extractor.py, which return what they
 * capture.  The chart rows are what `get_range_from_chart` (or, without a
 * range, `get_all_from_chart`) returns, in date order.
 */
module ChartExtractor {
  import opened Wrappers
  import opened StockDb
  import opened PatternScan

  /**
   * `capture_inst_cond`: choose the mode, then capture every row at which
   * the run of consecutive matching rows reaches `days`.
   */
  method CaptureInstCond(code: string, rows: seq<DatedRow>, thFore: int, thInst: int, days: int, group: string)
    returns (r: Result<seq<Capture>>)
    ensures r.Failure? <==> ChooseMode(thFore, thInst).None?
    ensures r.Success? ==>
      var flags := Flags(rows, ChooseMode(thFore, thInst).value, thFore, thInst);
      r.value == CapturesAt(code, rows, group, HitsBelow(flags, days, |rows|))
  {
    var m := ChooseMode(thFore, thInst);
    if m.None? {
      return Failure("ValueError");
    }
    var mode := m.value;
    ghost var flags := Flags(rows, mode, thFore, thInst);
    var captured := [];
    var dayCnt := 0;
    var k := 0;
    while k < |rows|
      invariant 0 <= k <= |rows|
      invariant dayCnt == if k == 0 then 0 else Streak(flags, k - 1)
      invariant captured == CapturesAt(code, rows, group, HitsBelow(flags, days, k))
    {
      if CompareQuantity(mode, thFore, thInst, rows[k].row.fore, rows[k].row.inst) {
        dayCnt := dayCnt + 1;
      } else {
        dayCnt := 0;
      }
      assert dayCnt == Streak(flags, k);
      ghost var hits := HitsBelow(flags, days, k);
      if dayCnt == days {
        assert HitsBelow(flags, days, k + 1) == hits + [k];
        CapturesAtSnoc(code, rows, group, hits, k);
        captured := captured + [Capture(code, rows[k].date, group)];
      } else {
        assert HitsBelow(flags, days, k + 1) == hits;
      }
      k := k + 1;
    }
    return Success(captured);
  }

  /**
   * `capture_chart_pattern`, integer skeleton: `matches(d)` says whether the
   * window starting at row `d` passes the flatness, ratio and Fréchet tests.
   * A pattern too short to resample raises before the scan: an empty one
   * at `pattern[0]`, a one-value one in the division by `len(pattern) - 1`.
   */
  method CaptureChartPattern(code: string, pattern: seq<int>, rows: seq<DatedRow>, windowSize: int,
                             windowMove: Option<int>, group: string, matches: nat -> bool)
    returns (r: Result<seq<Capture>>)
    requires windowSize >= 1 && EffectiveMove(windowMove, windowSize) >= 1
    ensures r.Failure? <==> |pattern| < 2
    ensures r.Failure? ==> r.error == if |pattern| == 0 then "IndexError" else "ZeroDivisionError"
    ensures r.Success? ==>
      r.value == CapturesAt(code, rows, group, ScanFrom(matches, |rows|, windowSize, EffectiveMove(windowMove, windowSize), 0))
  {
    var frPat := TransPatToFrpat(pattern, windowSize);
    if frPat.None? {
      return Failure(if |pattern| == 0 then "IndexError" else "ZeroDivisionError");
    }
    var captured := ScanWindows(code, rows, windowSize, EffectiveMove(windowMove, windowSize), group, matches);
    return Success(captured);
  }

  /** The window walk of `capture_chart_pattern`: the captures of the windows `ScanFrom` selects. */
  method ScanWindows(code: string, rows: seq<DatedRow>, windowSize: int, move: int, group: string, matches: nat -> bool)
    returns (captured: seq<Capture>)
    requires windowSize >= 1 && move >= 1
    ensures captured == CapturesAt(code, rows, group, ScanFrom(matches, |rows|, windowSize, move, 0))
  {
    ghost var whole := ScanFrom(matches, |rows|, windowSize, move, 0);
    ghost var idx: seq<nat> := [];
    captured := [];
    var days: nat := 0;
    while days < |rows|
      invariant ScanRest(matches, |rows|, windowSize, move, days, idx, whole)
      invariant Below(idx, |rows|)
      invariant captured == CapturesAt(code, rows, group, idx)
      decreases |rows| - days
    {
      if days + windowSize > |rows| {
        break;
      }
      ScanAdvance(matches, |rows|, windowSize, move, days, idx, whole);
      if matches(days) {
        var last: nat := days + windowSize - 1;
        CapturesAtSnoc(code, rows, group, idx, last);
        captured := captured + [Capture(code, rows[last].date, group)];
        idx := idx + [last];
        days := days + windowSize;
      } else {
        days := days + move;
      }
    }
    ScanDone(matches, |rows|, windowSize, move, days, idx, whole);
  }
}
