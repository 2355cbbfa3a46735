/**
 * The integer rules shared by the chart scans of kostock/backtester.py and
 * kostock/chart_extractor.py: which investor test applies, the run of
 * consecutive matching days, the x-coordinates of a pattern resampled to a
 * window, and the walk of the window over the chart.  Whether a window
 * resembles the pattern (the price ratio and the Fréchet distance) is a
 * predicate given by the caller.
 */
module PatternScan {
  import opened Wrappers
  import opened Calendar
  import opened StockDb

  // ---------------------------------------------------------------------
  // Investor-quantity test

  datatype Mode = Both | Fore | Inst

  /** BOTH when both thresholds are set, else the one that is set; `None` (an exception) when neither is. */
  function ChooseMode(thFore: int, thInst: int): (r: Option<Mode>)
    ensures r.None? <==> thFore == 0 && thInst == 0
    ensures r == Some(Both) <==> thFore != 0 && thInst != 0
    ensures r == Some(Fore) <==> thFore != 0 && thInst == 0
    ensures r == Some(Inst) <==> thFore == 0 && thInst != 0
  {
    if thFore != 0 && thInst != 0 then Some(Both)
    else if thFore != 0 then Some(Fore)
    else if thInst != 0 then Some(Inst)
    else None
  }

  /** Python truthiness of a nullable quantity: `None` and 0 are false. */
  predicate Truthy(q: Option<int>)
  {
    q.Some? && q.value != 0
  }

  /** `_compare_quantity`: a quantity counts only when truthy and at least its threshold. */
  predicate CompareQuantity(mode: Mode, thFore: int, thInst: int, fore: Option<int>, inst: Option<int>)
  {
    match mode
    case Both => Truthy(fore) && Truthy(inst) && fore.value >= thFore && inst.value >= thInst
    case Fore => Truthy(fore) && fore.value >= thFore
    case Inst => Truthy(inst) && inst.value >= thInst
  }

  /** BOTH is exactly FORE and INST together, and a zero or missing quantity never counts. */
  lemma CompareQuantityBoth(thFore: int, thInst: int, fore: Option<int>, inst: Option<int>)
    ensures CompareQuantity(Both, thFore, thInst, fore, inst) <==>
      CompareQuantity(Fore, thFore, thInst, fore, inst) && CompareQuantity(Inst, thFore, thInst, fore, inst)
    ensures fore == Some(0) || fore.None? ==> !CompareQuantity(Fore, thFore, thInst, fore, inst)
    ensures inst == Some(0) || inst.None? ==> !CompareQuantity(Inst, thFore, thInst, fore, inst)
  {
  }

  /** The test applied to each chart row: column 6 is `fore`, column 7 is `inst`. */
  function Flags(rows: seq<DatedRow>, mode: Mode, thFore: int, thInst: int): seq<bool>
  {
    seq(|rows|, k requires 0 <= k < |rows| => CompareQuantity(mode, thFore, thInst, rows[k].row.fore, rows[k].row.inst))
  }

  // ---------------------------------------------------------------------
  // Consecutive-day streaks

  /** `day_cnt` after row `k`: the number of matching rows ending at `k`. */
  function Streak(flags: seq<bool>, k: nat): nat
    requires k < |flags|
  {
    if !flags[k] then 0 else if k == 0 then 1 else Streak(flags, k - 1) + 1
  }

  /** The streak is the length of the run of matches ending at `k`, and the run is maximal. */
  lemma {:induction false} StreakIsRunLength(flags: seq<bool>, k: nat)
    requires k < |flags|
    ensures Streak(flags, k) <= k + 1
    ensures forall t :: k - Streak(flags, k) < t <= k ==> flags[t]
    ensures Streak(flags, k) <= k ==> !flags[k - Streak(flags, k)]
  {
    if flags[k] && k > 0 {
      StreakIsRunLength(flags, k - 1);
    }
  }

  /** Matches on every row after `i` up to `j` add one each to the streak. */
  lemma {:induction false} StreakExtends(flags: seq<bool>, i: nat, j: nat)
    requires i <= j < |flags|
    requires forall t :: i < t <= j ==> flags[t]
    ensures Streak(flags, j) == Streak(flags, i) + (j - i)
    decreases j - i
  {
    if i < j {
      StreakExtends(flags, i, j - 1);
    }
  }

  /** The rows below `n` where the streak equals `days`, in chart order. */
  function HitsBelow(flags: seq<bool>, days: int, n: nat): (r: seq<nat>)
    requires n <= |flags|
    ensures Below(r, n)
  {
    if n == 0 then []
    else HitsBelow(flags, days, n - 1) + (if Streak(flags, n - 1) == days then [n - 1] else [])
  }

  /** `day_cnt` and the hits after the first `k` rows. */
  ghost predicate StreakSoFar(flags: seq<bool>, days: int, k: nat, dayCnt: int, hits: seq<nat>)
  {
    && k <= |flags|
    && dayCnt == (if k == 0 then 0 else Streak(flags, k - 1))
    && hits == HitsBelow(flags, days, k)
  }

  /** Row `k` extends the streak or resets it, and is a hit when the streak reaches `days`. */
  lemma StreakAdvance(flags: seq<bool>, days: int, k: nat, dayCnt: int, hits: seq<nat>)
    requires k < |flags| && StreakSoFar(flags, days, k, dayCnt, hits)
    ensures var d := if flags[k] then dayCnt + 1 else 0;
      StreakSoFar(flags, days, k + 1, d, if d == days then hits + [k] else hits)
  {
    assert HitsBelow(flags, days, k) + [] == HitsBelow(flags, days, k);
  }

  predicate Increasing(r: seq<nat>)
  {
    forall a, b :: 0 <= a < b < |r| ==> r[a] < r[b]
  }

  predicate StreaksAre(flags: seq<bool>, days: int, r: seq<nat>)
  {
    forall a :: 0 <= a < |r| && r[a] < |flags| ==> Streak(flags, r[a]) == days
  }

  /** Every hit has streak `days`, and the hits come in chart order. */
  lemma {:induction false} HitsBelowSound(flags: seq<bool>, days: int, n: nat)
    requires n <= |flags|
    ensures StreaksAre(flags, days, HitsBelow(flags, days, n))
    ensures Increasing(HitsBelow(flags, days, n))
  {
    if n > 0 {
      HitsBelowSound(flags, days, n - 1);
      var prev := HitsBelow(flags, days, n - 1);
      var r := HitsBelow(flags, days, n);
      var tail := if Streak(flags, n - 1) == days then [n - 1] else [];
      assert r == prev + tail;
      assert Below(prev, n - 1);
      forall a | 0 <= a < |r|
        ensures Streak(flags, r[a]) == days
      {
        if a < |prev| {
          assert r[a] == prev[a];
        } else {
          assert r[a] == tail[a - |prev|] == n - 1;
        }
      }
      forall a, b | 0 <= a < b < |r|
        ensures r[a] < r[b]
      {
        if b < |prev| {
          assert r[a] == prev[a] && r[b] == prev[b];
        } else {
          assert r[b] == tail[b - |prev|] == n - 1;
          assert r[a] == prev[a] && prev[a] < n - 1;
        }
      }
    }
  }

  /** Every row whose streak equals `days` is among the hits. */
  lemma {:induction false} HitsBelowComplete(flags: seq<bool>, days: int, n: nat, k: nat)
    requires n <= |flags| && k < n && Streak(flags, k) == days
    ensures k in HitsBelow(flags, days, n)
  {
    if k < n - 1 {
      HitsBelowComplete(flags, days, n - 1, k);
    }
  }

  /**
   * With `days >= 1`, a run of matches yields at most one hit: between two
   * hits lies a row that does not match.
   */
  lemma OneHitPerRun(flags: seq<bool>, days: int, i: nat, j: nat)
    requires days >= 1 && i < j < |flags|
    requires Streak(flags, i) == days && Streak(flags, j) == days
    ensures exists t :: i < t <= j && !flags[t]
  {
    if forall t :: i < t <= j ==> flags[t] {
      StreakExtends(flags, i, j);
    }
  }

  /** With `days >= 1`, a hit is the `days`-th row of a run of matches. */
  lemma HitIsDaysthOfRun(flags: seq<bool>, days: int, k: nat)
    requires days >= 1 && k < |flags| && Streak(flags, k) == days
    ensures days <= k + 1
    ensures forall t :: k - days < t <= k ==> flags[t]
    ensures k >= days ==> !flags[k - days]
  {
    StreakIsRunLength(flags, k);
  }

  /** With `days == 0` the hits are exactly the rows that do not match. */
  lemma ZeroDaysHitsNonMatches(flags: seq<bool>, k: nat)
    requires k < |flags|
    ensures Streak(flags, k) == 0 <==> !flags[k]
  {
  }

  // ---------------------------------------------------------------------
  // Captures

  /** One selected moment: `[code, date, group]`. */
  datatype Capture = Capture(code: string, date: Date, group: string)

  /** Every index in `idx` is below `n`. */
  predicate Below(idx: seq<nat>, n: nat)
  {
    forall a :: 0 <= a < |idx| ==> idx[a] < n
  }

  function CapturesAt(code: string, rows: seq<DatedRow>, group: string, idx: seq<nat>): (r: seq<Capture>)
    requires Below(idx, |rows|)
    ensures |r| == |idx|
  {
    if idx == [] then []
    else CapturesAt(code, rows, group, idx[..|idx| - 1]) + [Capture(code, rows[idx[|idx| - 1]].date, group)]
  }

  /** Capturing one more row appends its capture. */
  lemma CapturesAtSnoc(code: string, rows: seq<DatedRow>, group: string, idx: seq<nat>, k: nat)
    requires Below(idx, |rows|) && k < |rows|
    ensures Below(idx + [k], |rows|)
    ensures CapturesAt(code, rows, group, idx + [k]) == CapturesAt(code, rows, group, idx) + [Capture(code, rows[k].date, group)]
  {
    assert (idx + [k])[..|idx|] == idx;
  }

  // ---------------------------------------------------------------------
  // Pattern resampling

  /** A resampled pattern point: x-coordinate `x`, at step `step` of `itv` along segment `seg`. */
  datatype PatPoint = PatPoint(x: int, seg: int, step: int, itv: int)

  /** The interval of segment `i`: `p + 1` for the first `q` segments, else `p`, with `(p, q) = divmod(w - 1, n - 1)`. */
  function Interval(windowSize: int, n: int, i: int): int
    requires n >= 2
  {
    var p := (windowSize - 1) / (n - 1);
    var q := (windowSize - 1) % (n - 1);
    if i < q then p + 1 else p
  }

  /** The points contributed by the first `k` segments. */
  function IntervalSum(windowSize: int, n: int, k: nat): (r: int)
    requires n >= 2
    ensures r >= 0
  {
    if k == 0 then 0 else IntervalSum(windowSize, n, k - 1) + (if Interval(windowSize, n, k - 1) > 0 then Interval(windowSize, n, k - 1) else 0)
  }

  lemma {:induction false} IntervalSumPrefix(windowSize: int, n: int, k: nat)
    requires n >= 2 && windowSize >= 1 && k <= n - 1
    ensures IntervalSum(windowSize, n, k) == k * ((windowSize - 1) / (n - 1)) + (if k < (windowSize - 1) % (n - 1) then k else (windowSize - 1) % (n - 1))
  {
    if k > 0 {
      IntervalSumPrefix(windowSize, n, k - 1);
      var p := (windowSize - 1) / (n - 1);
      assert k * p == (k - 1) * p + p;
    }
  }

  /** The intervals add up to `window_size - 1`, so the resampled pattern has one point per window day. */
  lemma IntervalsCoverWindow(windowSize: int, n: int)
    requires n >= 2 && windowSize >= 1
    ensures IntervalSum(windowSize, n, n - 1) == windowSize - 1
  {
    IntervalSumPrefix(windowSize, n, n - 1);
    var p := (windowSize - 1) / (n - 1);
    var q := (windowSize - 1) % (n - 1);
    assert windowSize - 1 == (n - 1) * p + q;
  }

  /** One segment's points: steps 1..itv with x-coordinates following `base`. */
  method SegmentPoints(base: int, seg: int, itv: int) returns (pts: seq<PatPoint>)
    ensures |pts| == (if itv > 0 then itv else 0)
    ensures forall j :: 0 <= j < |pts| ==> pts[j] == PatPoint(base + j + 1, seg, j + 1, itv)
  {
    pts := [];
    var j := 1;
    while j <= itv
      invariant 1 <= j && (itv > 0 ==> j <= itv + 1) && (itv <= 0 ==> j == 1)
      invariant |pts| == j - 1
      invariant forall t :: 0 <= t < |pts| ==> pts[t] == PatPoint(base + t + 1, seg, t + 1, itv)
    {
      pts := pts + [PatPoint(base + j, seg, j, itv)];
      j := j + 1;
    }
  }

  /**
   * `_trans_pat_to_frpat`, integer part: the first point is `pattern[0]`
   * at x 0, then each segment contributes its interval's worth of points
   * at consecutive x.  `None` where the source raises: an empty pattern
   * fails at `pattern[0]` and a one-value pattern divides by zero.
   */
  method TransPatToFrpat(pattern: seq<int>, windowSize: int) returns (r: Option<seq<PatPoint>>)
    ensures r.None? <==> |pattern| < 2
    ensures r.Some? ==> |r.value| >= 1 && r.value[0] == PatPoint(0, 0, 0, 1)
    ensures r.Some? ==> forall k :: 0 <= k < |r.value| ==> r.value[k].x == k
    ensures r.Some? ==> forall k :: 1 <= k < |r.value| ==>
      0 <= r.value[k].seg < |pattern| - 1 && 1 <= r.value[k].step <= r.value[k].itv
      && r.value[k].itv == Interval(windowSize, |pattern|, r.value[k].seg)
    ensures r.Some? && windowSize >= 1 ==> |r.value| == windowSize
  {
    if |pattern| < 2 {
      return None;
    }
    var n := |pattern|;
    var pts := [PatPoint(0, 0, 0, 1)];
    var cnt := 0;
    var i := 0;
    while i < n - 1
      invariant 0 <= i <= n - 1
      invariant cnt == IntervalSum(windowSize, n, i) && |pts| == cnt + 1
      invariant pts[0] == PatPoint(0, 0, 0, 1)
      invariant forall k :: 0 <= k < |pts| ==> pts[k].x == k
      invariant forall k :: 1 <= k < |pts| ==>
        0 <= pts[k].seg < i && 1 <= pts[k].step <= pts[k].itv && pts[k].itv == Interval(windowSize, n, pts[k].seg)
    {
      var itv := Interval(windowSize, n, i);
      var seg := SegmentPoints(cnt, i, itv);
      pts := pts + seg;
      cnt := cnt + |seg|;
      i := i + 1;
    }
    if windowSize >= 1 {
      IntervalsCoverWindow(windowSize, n);
    }
    return Some(pts);
  }

  // ---------------------------------------------------------------------
  // Window scan

  /** `window_move` when not given: a tenth of the window, rounded down. */
  function EffectiveMove(windowMove: Option<int>, windowSize: int): int
  {
    if windowMove.Some? then windowMove.value else windowSize / 10
  }

  /** One step of the offset: past the window after a capture, else by `move`. */
  function ScanStep(matches: nat -> bool, d: nat, windowSize: nat, move: nat): nat
  {
    if matches(d) then d + windowSize else d + move
  }

  /** With a zero move, a window that does not match leaves the offset where it is, forever. */
  lemma ZeroMoveStalls(matches: nat -> bool, d: nat, windowSize: nat)
    requires !matches(d)
    ensures ScanStep(matches, d, windowSize, 0) == d
    ensures EffectiveMove(None, 9) == 0
  {
  }

  /** The last indices of the windows captured from offset `d` on, over a chart of `len` rows. */
  function ScanFrom(matches: nat -> bool, len: nat, windowSize: nat, move: nat, d: nat): (r: seq<nat>)
    requires windowSize >= 1 && move >= 1
    ensures Below(r, len)
    decreases len - d
  {
    if d + windowSize > len then []
    else if matches(d) then [d + windowSize - 1] + ScanFrom(matches, len, windowSize, move, d + windowSize)
    else ScanFrom(matches, len, windowSize, move, d + move)
  }

  /** Scanning from offset `d` adds to the captures `idx` made so far exactly what `whole` still lacks. */
  predicate ScanRest(matches: nat -> bool, len: nat, windowSize: nat, move: nat, d: nat, idx: seq<nat>, whole: seq<nat>)
    requires windowSize >= 1 && move >= 1
  {
    idx + ScanFrom(matches, len, windowSize, move, d) == whole
  }

  /** One scan step: the window at `d` is captured and skipped over, or the offset moves on. */
  lemma ScanAdvance(matches: nat -> bool, len: nat, windowSize: nat, move: nat, d: nat, idx: seq<nat>, whole: seq<nat>)
    requires windowSize >= 1 && move >= 1 && d + windowSize <= len
    requires ScanRest(matches, len, windowSize, move, d, idx, whole)
    ensures matches(d) ==> ScanRest(matches, len, windowSize, move, d + windowSize, idx + [d + windowSize - 1], whole)
    ensures !matches(d) ==> ScanRest(matches, len, windowSize, move, d + move, idx, whole)
  {
    if matches(d) {
      var rest := ScanFrom(matches, len, windowSize, move, d + windowSize);
      assert ScanFrom(matches, len, windowSize, move, d) == [d + windowSize - 1] + rest;
      assert idx + ([d + windowSize - 1] + rest) == (idx + [d + windowSize - 1]) + rest;
    }
  }

  /** Once no full window is left, the captures made are all there are. */
  lemma ScanDone(matches: nat -> bool, len: nat, windowSize: nat, move: nat, d: nat, idx: seq<nat>, whole: seq<nat>)
    requires windowSize >= 1 && move >= 1 && d + windowSize > len
    requires ScanRest(matches, len, windowSize, move, d, idx, whole)
    ensures idx == whole
  {
    assert idx + [] == idx;
  }

  /**
   * Every capture in `r` ends a full window, from offset `d` on, that
   * matched; captures increase, and two captured windows never overlap.
   */
  predicate WellSpaced(matches: nat -> bool, len: nat, windowSize: nat, d: nat, r: seq<nat>)
  {
    && (forall a :: 0 <= a < |r| ==> d + windowSize - 1 <= r[a] < len && r[a] + 1 >= windowSize && matches(r[a] + 1 - windowSize))
    && (forall a, b :: 0 <= a < b < |r| ==> r[a] + windowSize <= r[b])
  }

  lemma WellSpacedCons(matches: nat -> bool, len: nat, windowSize: nat, d: nat, rest: seq<nat>)
    requires windowSize >= 1 && d + windowSize <= len && matches(d)
    requires WellSpaced(matches, len, windowSize, d + windowSize, rest)
    ensures WellSpaced(matches, len, windowSize, d, [d + windowSize - 1] + rest)
  {
    var r := [d + windowSize - 1] + rest;
    forall a | 0 < a < |r|
      ensures r[a] == rest[a - 1]
    {
    }
  }

  lemma WellSpacedLater(matches: nat -> bool, len: nat, windowSize: nat, d: nat, next: nat, r: seq<nat>)
    requires d <= next && WellSpaced(matches, len, windowSize, next, r)
    ensures WellSpaced(matches, len, windowSize, d, r)
  {
  }

  lemma {:induction false} ScanFacts(matches: nat -> bool, len: nat, windowSize: nat, move: nat, d: nat)
    requires windowSize >= 1 && move >= 1
    ensures WellSpaced(matches, len, windowSize, d, ScanFrom(matches, len, windowSize, move, d))
    decreases len - d
  {
    if d + windowSize <= len {
      if matches(d) {
        ScanFacts(matches, len, windowSize, move, d + windowSize);
        WellSpacedCons(matches, len, windowSize, d, ScanFrom(matches, len, windowSize, move, d + windowSize));
      } else {
        ScanFacts(matches, len, windowSize, move, d + move);
        WellSpacedLater(matches, len, windowSize, d, d + move, ScanFrom(matches, len, windowSize, move, d + move));
      }
    }
  }
}
