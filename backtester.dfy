/**
 * The test list of kostock/backtester.py's `BackTester` and the scans that
 * fill it.  Each inserted code is tagged `code_k`, where `k` counts the
 * earlier inserts of that code; the counters are never lowered, so a tag is
 * never handed out twice.  The price statistics of `back_test` are not
 * part of this model.
 */
module KostockBackTester {
  import opened Wrappers
  import opened Text
  import opened Calendar
  import opened StockDb
  import opened PatternScan
  import opened TestList

  /** `'_'.join([code, str(k)])`. */
  function Tag(code: string, k: nat): string
  {
    code + "_" + NatToString(k)
  }

  lemma TagParts(code: string, k: nat)
    ensures var t := Tag(code, k);
      |t| > |code| + 1 && t[..|code|] == code && t[|code|] == '_' && t[|code| + 1..] == NatToString(k)
  {
  }

  /** A tag determines its code and its number. */
  lemma TagInjective(c1: string, k1: nat, c2: string, k2: nat)
    requires Tag(c1, k1) == Tag(c2, k2)
    ensures c1 == c2 && k1 == k2
  {
    var t := Tag(c1, k1);
    TagParts(c1, k1);
    TagParts(c2, k2);
    if |c1| < |c2| {
      assert false;
    }
    if |c2| < |c1| {
      assert false;
    }
    ParseNatToString(k1);
    ParseNatToString(k2);
  }

  lemma TagDistinct(c1: string, k1: nat, c2: string, k2: nat)
    requires c1 != c2 || k1 != k2
    ensures Tag(c1, k1) != Tag(c2, k2)
  {
    if Tag(c1, k1) == Tag(c2, k2) {
      TagInjective(c1, k1, c2, k2);
      assert false;
    }
  }

  /** `self._code_nums[code]` on a `defaultdict(int)`. */
  function Num(nums: map<string, nat>, code: string): nat
  {
    if code in nums then nums[code] else 0
  }

  /** The counters after `n` inserts of `code`; a code never inserted gets no key. */
  function Bumped(nums: map<string, nat>, code: string, n: nat): (r: map<string, nat>)
    ensures Num(r, code) == Num(nums, code) + n
  {
    if n == 0 then nums else nums[code := Num(nums, code) + n]
  }

  /** The entries that inserting `caps`, in order, appends, starting from counter `start`. */
  function Entries(code: string, start: nat, caps: seq<Capture>): (r: seq<TestEntry>)
    ensures |r| == |caps|
  {
    if caps == [] then []
    else
      var last := caps[|caps| - 1];
      Entries(code, start, caps[..|caps| - 1]) + [TestEntry(Tag(code, start + |caps| - 1), Day(last.date), Str(last.group))]
  }

  lemma EntriesSnoc(code: string, start: nat, caps: seq<Capture>, c: Capture)
    ensures Entries(code, start, caps + [c]) == Entries(code, start, caps) + [TestEntry(Tag(code, start + |caps|), Day(c.date), Str(c.group))]
  {
    assert (caps + [c])[..|caps|] == caps;
  }

  lemma AppendAssoc<T>(a: seq<T>, b: seq<T>, c: seq<T>)
    ensures (a + b) + c == a + (b + c)
  {
  }

  lemma BumpedSnoc(nums: map<string, nat>, code: string, n: nat)
    ensures Bumped(nums, code, n + 1) == Bumped(nums, code, n)[code := Num(nums, code) + n + 1]
  {
  }

  class BackTester {
    var testList: seq<TestEntry>
    var codeNums: map<string, nat>
    /** Every (code, number) pair that has been turned into a tag. */
    ghost var issued: set<(string, nat)>

    /** Every number handed out for a code is below that code's counter. */
    ghost predicate Valid()
      reads this
    {
      forall p :: p in issued ==> p.1 < Num(codeNums, p.0)
    }

    constructor ()
      ensures Valid()
      ensures testList == [] && codeNums == map[] && issued == {}
    {
      testList := [];
      codeNums := map[];
      issued := {};
    }

    /**
     * `insert`: an entry of three values has its code tagged with the
     * code's counter, is appended, and bumps the counter.  The new tag
     * differs from every tag handed out before.
     */
    method Insert(data: seq<Value>) returns (err: Option<string>)
      requires Valid()
      modifies this
      ensures Valid() && old(issued) <= issued
      ensures |data| != 3 ==> err == Some("ArgumentError") && testList == old(testList) && codeNums == old(codeNums)
      ensures |data| == 3 && !data[0].Str? ==> err == Some("TypeError") && testList == old(testList) && codeNums == old(codeNums)
      ensures |data| == 3 && data[0].Str? ==>
        var code := data[0].s;
        var k := Num(old(codeNums), code);
        && err.None?
        && testList == old(testList) + [TestEntry(Tag(code, k), data[1], data[2])]
        && codeNums == old(codeNums)[code := k + 1]
        && issued == old(issued) + {(code, k)}
        && (forall p :: p in old(issued) ==> Tag(p.0, p.1) != Tag(code, k))
    {
      if |data| != 3 {
        return Some("ArgumentError");
      }
      if !data[0].Str? {
        // `'_'.join` refuses a value that is not text
        return Some("TypeError");
      }
      var code := data[0].s;
      var k := Num(codeNums, code);
      forall p | p in issued
        ensures Tag(p.0, p.1) != Tag(code, k)
      {
        TagDistinct(p.0, p.1, code, k);
      }
      testList := testList + [TestEntry(Tag(code, k), data[1], data[2])];
      codeNums := codeNums[code := k + 1];
      issued := issued + {(code, k)};
      err := None;
    }

    method DeleteAll()
      requires Valid()
      modifies this
      ensures Valid() && testList == [] && codeNums == old(codeNums) && issued == old(issued)
    {
      testList := [];
    }

    /** `delete()` pops the last entry; `delete(x)` removes the first entry equal to `x`. */
    method Delete(data: Option<TestEntry>) returns (err: Option<string>)
      requires Valid()
      modifies this
      ensures Valid() && codeNums == old(codeNums) && issued == old(issued)
      ensures data.None? && old(testList) == [] ==> err == Some("IndexError") && testList == old(testList)
      ensures data.None? && old(testList) != [] ==> err.None? && testList == old(testList)[..|old(testList)| - 1]
      ensures data.Some? && data.value !in old(testList) ==> err == Some("ValueError") && testList == old(testList)
      ensures data.Some? && data.value in old(testList) ==> err.None? && testList == RemoveFirst(old(testList), data.value)
    {
      if data.None? {
        if testList == [] {
          return Some("IndexError");
        }
        testList := testList[..|testList| - 1];
      } else {
        if data.value !in testList {
          return Some("ValueError");
        }
        testList := RemoveFirst(testList, data.value);
      }
      err := None;
    }

    /** `get_test_list`: a copy, which later changes to the tester do not reach. */
    method GetTestList() returns (r: seq<TestEntry>)
      ensures r == testList
    {
      r := testList;
    }

    /** The list and the counters are those at `list0` and `nums0` after inserting `caps` for `code`. */
    ghost predicate Extends(list0: seq<TestEntry>, nums0: map<string, nat>, code: string, caps: seq<Capture>)
      reads this
    {
      && testList == list0 + Entries(code, Num(nums0, code), caps)
      && codeNums == Bumped(nums0, code, |caps|)
    }

    /** One `self.insert([code, date, group])` of a scan: the entries grow by capture `c`. */
    method InsertCapture(code: string, c: Capture, ghost list0: seq<TestEntry>, ghost nums0: map<string, nat>,
                         ghost caps: seq<Capture>)
      requires Valid()
      requires Extends(list0, nums0, code, caps)
      modifies this
      ensures Valid() && old(issued) <= issued
      ensures Extends(list0, nums0, code, caps + [c])
    {
      ghost var n0 := Num(nums0, code);
      ghost var e := TestEntry(Tag(code, n0 + |caps|), Day(c.date), Str(c.group));
      EntriesSnoc(code, n0, caps, c);
      BumpedSnoc(nums0, code, |caps|);
      assert |caps + [c]| == |caps| + 1;
      assert Num(codeNums, code) == n0 + |caps|;
      var _ := Insert([Str(code), Day(c.date), Str(c.group)]);
      AppendAssoc(list0, Entries(code, n0, caps), [e]);
    }

    /** The insert of the capture at row `k`, after those at `idx`. */
    method InsertAt(code: string, rows: seq<DatedRow>, group: string, ghost idx: seq<nat>, k: nat,
                    ghost list0: seq<TestEntry>, ghost nums0: map<string, nat>)
      requires Valid() && Below(idx, |rows|) && k < |rows|
      requires Extends(list0, nums0, code, CapturesAt(code, rows, group, idx))
      modifies this
      ensures Valid() && old(issued) <= issued && Below(idx + [k], |rows|)
      ensures Extends(list0, nums0, code, CapturesAt(code, rows, group, idx + [k]))
    {
      CapturesAtSnoc(code, rows, group, idx, k);
      InsertCapture(code, Capture(code, rows[k].date, group), list0, nums0, CapturesAt(code, rows, group, idx));
    }

    /**
     * `ins_institution_condition`: insert `[code, date, group]` at every row
     * where the run of matching rows reaches `days`.
     */
    method InsInstitutionCondition(code: string, rows: seq<DatedRow>, thFore: int, thInst: int, days: int, group: string)
      returns (err: Option<string>)
      requires Valid()
      modifies this
      ensures Valid() && old(issued) <= issued
      ensures ChooseMode(thFore, thInst).None? ==>
        err == Some("ArgumentError") && testList == old(testList) && codeNums == old(codeNums)
      ensures ChooseMode(thFore, thInst).Some? ==>
        var flags := Flags(rows, ChooseMode(thFore, thInst).value, thFore, thInst);
        var caps := CapturesAt(code, rows, group, HitsBelow(flags, days, |rows|));
        && err.None?
        && testList == old(testList) + Entries(code, Num(old(codeNums), code), caps)
        && codeNums == Bumped(old(codeNums), code, |caps|)
    {
      var m := ChooseMode(thFore, thInst);
      if m.None? {
        return Some("ArgumentError");
      }
      InsertStreakHits(code, rows, m.value, thFore, thInst, days, group);
      err := None;
    }

    /** The row loop of `ins_institution_condition` for a chosen mode. */
    method InsertStreakHits(code: string, rows: seq<DatedRow>, mode: Mode, thFore: int, thInst: int, days: int, group: string)
      requires Valid()
      modifies this
      ensures Valid() && old(issued) <= issued
      ensures Extends(old(testList), old(codeNums), code, CapturesAt(code, rows, group, HitsBelow(Flags(rows, mode, thFore, thInst), days, |rows|)))
    {
      ghost var flags := Flags(rows, mode, thFore, thInst);
      ghost var list0, nums0, issued0 := testList, codeNums, issued;
      ghost var hits: seq<nat> := [];
      var dayCnt := 0;
      for k: nat := 0 to |rows|
        invariant RowsDone(list0, nums0, issued0, code, rows, group, flags, days, k, dayCnt, hits)
      {
        dayCnt, hits := AdvanceRow(code, rows, mode, thFore, thInst, days, group, k, dayCnt, hits, list0, nums0, issued0);
      }
    }

    /** The state of that loop after `k` rows: the streak, the hits, and their inserts. */
    ghost predicate RowsDone(list0: seq<TestEntry>, nums0: map<string, nat>, issued0: set<(string, nat)>,
                             code: string, rows: seq<DatedRow>, group: string,
                             flags: seq<bool>, days: int, k: nat, dayCnt: int, hits: seq<nat>)
      reads this
    {
      && Valid() && issued0 <= issued && k <= |rows|
      && StreakSoFar(flags, days, k, dayCnt, hits) && Below(hits, |rows|)
      && Extends(list0, nums0, code, CapturesAt(code, rows, group, hits))
    }

    /** One row of that loop: the streak is extended or reset, and a row that completes it is inserted. */
    method AdvanceRow(code: string, rows: seq<DatedRow>, mode: Mode, thFore: int, thInst: int, days: int, group: string,
                      k: nat, dayCnt: int, ghost hits: seq<nat>, ghost list0: seq<TestEntry>, ghost nums0: map<string, nat>,
                      ghost issued0: set<(string, nat)>)
      returns (dayCnt': int, ghost hits': seq<nat>)
      requires k < |rows|
      requires RowsDone(list0, nums0, issued0, code, rows, group, Flags(rows, mode, thFore, thInst), days, k, dayCnt, hits)
      modifies this
      ensures RowsDone(list0, nums0, issued0, code, rows, group, Flags(rows, mode, thFore, thInst), days, k + 1, dayCnt', hits')
    {
      ghost var flags := Flags(rows, mode, thFore, thInst);
      var hit := CompareQuantity(mode, thFore, thInst, rows[k].row.fore, rows[k].row.inst);
      assert flags[k] == hit;
      StreakAdvance(flags, days, k, dayCnt, hits);
      dayCnt', hits' := if hit then dayCnt + 1 else 0, hits;
      if dayCnt' == days {
        InsertAt(code, rows, group, hits, k, list0, nums0);
        hits' := hits + [k];
      }
    }

    /**
     * `ins_chart_pattern`, integer skeleton: insert `[code, date, group]`
     * for every window the scan captures; `matches(d)` is the outcome of
     * the flatness, ratio and Fréchet tests on the window at row `d`.
     */
    method InsChartPattern(code: string, pattern: seq<int>, rows: seq<DatedRow>, windowSize: int,
                           windowMove: Option<int>, group: string, matches: nat -> bool)
      returns (err: Option<string>)
      requires Valid()
      requires windowSize >= 1 && EffectiveMove(windowMove, windowSize) >= 1
      modifies this
      ensures Valid() && old(issued) <= issued
      ensures |pattern| < 2 ==> err.Some? && testList == old(testList) && codeNums == old(codeNums)
      ensures |pattern| < 2 ==> err.value == if |pattern| == 0 then "IndexError" else "ZeroDivisionError"
      ensures |pattern| >= 2 ==>
        var caps := CapturesAt(code, rows, group, ScanFrom(matches, |rows|, windowSize, EffectiveMove(windowMove, windowSize), 0));
        && err.None?
        && testList == old(testList) + Entries(code, Num(old(codeNums), code), caps)
        && codeNums == Bumped(old(codeNums), code, |caps|)
    {
      var frPat := TransPatToFrpat(pattern, windowSize);
      if frPat.None? {
        return Some(if |pattern| == 0 then "IndexError" else "ZeroDivisionError");
      }
      InsertWindows(code, rows, windowSize, EffectiveMove(windowMove, windowSize), group, matches);
      err := None;
    }

    /** The state of that walk at window start `days`: the captures so far are `idx`, all inserted. */
    ghost predicate WindowsDone(list0: seq<TestEntry>, nums0: map<string, nat>, code: string, rows: seq<DatedRow>, group: string,
                                matches: nat -> bool, windowSize: int, move: int, days: nat, idx: seq<nat>, whole: seq<nat>)
      reads this
    {
      && Valid() && windowSize >= 1 && move >= 1
      && ScanRest(matches, |rows|, windowSize, move, days, idx, whole)
      && Below(idx, |rows|)
      && Extends(list0, nums0, code, CapturesAt(code, rows, group, idx))
    }

    /** The window walk of `ins_chart_pattern`, inserting each capture as it is found. */
    method InsertWindows(code: string, rows: seq<DatedRow>, windowSize: int, move: int, group: string, matches: nat -> bool)
      requires Valid() && windowSize >= 1 && move >= 1
      modifies this
      ensures Valid() && old(issued) <= issued
      ensures
        var caps := CapturesAt(code, rows, group, ScanFrom(matches, |rows|, windowSize, move, 0));
        && testList == old(testList) + Entries(code, Num(old(codeNums), code), caps)
        && codeNums == Bumped(old(codeNums), code, |caps|)
    {
      ghost var whole := ScanFrom(matches, |rows|, windowSize, move, 0);
      ghost var list0, nums0, issued0 := testList, codeNums, issued;
      ghost var idx: seq<nat> := [];
      var days: nat := 0;
      while days < |rows|
        invariant issued0 <= issued
        invariant WindowsDone(list0, nums0, code, rows, group, matches, windowSize, move, days, idx, whole)
        decreases |rows| - days
      {
        if days + windowSize > |rows| {
          break;
        }
        ScanAdvance(matches, |rows|, windowSize, move, days, idx, whole);
        if matches(days) {
          var last: nat := days + windowSize - 1;
          InsertAt(code, rows, group, idx, last, list0, nums0);
          idx := idx + [last];
          days := days + windowSize;
        } else {
          days := days + move;
        }
      }
      ScanDone(matches, |rows|, windowSize, move, days, idx, whole);
    }
  }
}
