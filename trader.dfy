/**
 * The test list of qpkg/Trader.py's `BackTester`.  Here a code is numbered
 * from the test list itself: the new entry's code is `code_0`, unless an
 * entry whose first seven characters agree is already in the list, in which
 * case the number after those seven characters in the latest such entry is
 * read and one added.  The price statistics of `back_test` are not part of
 * this model.
 */
module QpkgTrader {
  import opened Wrappers
  import opened Text
  import opened TestList

  /** `s[0:7]`. */
  function Prefix7(s: string): (r: string)
    ensures |r| <= 7 && r <= s
  {
    if |s| >= 7 then s[..7] else s
  }

  /** `s[7:]`. */
  function Suffix7(s: string): (r: string)
    ensures Prefix7(s) + r == s
  {
    if |s| >= 7 then s[7..] else ""
  }

  /** The position of the latest entry whose code starts like `key` (compared on seven characters). */
  function LatestSharing(list: seq<TestEntry>, key: string): (r: Option<nat>)
    ensures r.Some? ==> r.value < |list|
  {
    if list == [] then None
    else if Prefix7(list[|list| - 1].code) == key then Some(|list| - 1)
    else LatestSharing(list[..|list| - 1], key)
  }

  /** The entry found shares the prefix, and no later entry does; when none is found, no entry does. */
  lemma {:induction false} LatestSharingIsLatest(list: seq<TestEntry>, key: string)
    ensures var r := LatestSharing(list, key);
      && (r.Some? ==> Prefix7(list[r.value].code) == key)
      && (r.Some? ==> forall j :: r.value < j < |list| ==> Prefix7(list[j].code) != key)
      && (r.None? ==> forall j :: 0 <= j < |list| ==> Prefix7(list[j].code) != key)
    decreases |list|
  {
    if list != [] && Prefix7(list[|list| - 1].code) != key {
      var shorter := list[..|list| - 1];
      LatestSharingIsLatest(shorter, key);
      assert forall j :: 0 <= j < |shorter| ==> shorter[j] == list[j];
    }
  }

  /**
   * The code `insert` gives a new entry for `code` on `list`, or the
   * ValueError that `int()` raises when the latest entry sharing the prefix
   * has no number after its seventh character.
   */
  function NextCode(list: seq<TestEntry>, code: string): Result<string>
  {
    var code0 := code + "_0";
    match LatestSharing(list, Prefix7(code0))
    case None => Success(code0)
    case Some(i) =>
      match ParseInt(Suffix7(list[i].code))
      case None => Failure("ValueError")
      case Some(n) => Success(Prefix7(code0) + IntToString(n + 1))
  }

  /** Entries added after the latest entry sharing `key`, none sharing it, change nothing. */
  lemma {:induction false} LatestSharingAppend(list: seq<TestEntry>, more: seq<TestEntry>, key: string)
    requires forall j :: 0 <= j < |more| ==> Prefix7(more[j].code) != key
    ensures LatestSharing(list + more, key) == LatestSharing(list, key)
    decreases |more|
  {
    if more != [] {
      var shorter := more[..|more| - 1];
      assert forall j :: 0 <= j < |shorter| ==> shorter[j] == more[j];
      LatestSharingAppend(list, shorter, key);
      DropLast(list, more);
    } else {
      assert list + more == list;
    }
  }

  lemma DropLast<T>(a: seq<T>, b: seq<T>)
    requires b != []
    ensures (a + b)[|a + b| - 1] == b[|b| - 1]
    ensures (a + b)[..|a + b| - 1] == a + b[..|b| - 1]
  {
  }

  /**
   * For a six-character stock code the new code keeps the seven-character
   * prefix `code_`, and the number after it is one more than the latest
   * entry's, or 0 for a code not yet in the list: the next insert reads
   * back exactly that number.
   */
  lemma NextCodeNumbers(list: seq<TestEntry>, code: string)
    requires |code| == 6
    ensures var key := code + "_";
      match NextCode(list, code)
      case Success(t) =>
        && Prefix7(t) == key
        && ParseInt(Suffix7(t)) == Some(
             match LatestSharing(list, key)
             case None => 0
             case Some(i) => ParseInt(Suffix7(list[i].code)).value + 1)
      case Failure(_) =>
        && LatestSharing(list, key).Some?
        && ParseInt(Suffix7(list[LatestSharing(list, key).value].code)).None?
  {
    var key := code + "_";
    assert Prefix7(code + "_0") == key;
    match LatestSharing(list, key)
    case None =>
      assert Suffix7(code + "_0") == "0";
      assert ParseNat("0"[..0]) == 0;
    case Some(i) =>
      match ParseInt(Suffix7(list[i].code))
      case None =>
      case Some(n) =>
        var s := IntToString(n + 1);
        IntToStringRoundTrip(n + 1);
        assert (key + s)[..7] == key;
        assert (key + s)[7..] == s;
  }

  /** Inserting a six-character code twice in a row numbers the two entries 0 and 1. */
  lemma RepeatedInsertCounts(list: seq<TestEntry>, code: string, e: TestEntry)
    requires |code| == 6
    requires LatestSharing(list, code + "_").None?
    requires e.code == code + "_0"
    ensures NextCode(list, code) == Success(code + "_0")
    ensures NextCode(list + [e], code) == Success(code + "_1")
  {
    var key := code + "_";
    assert Prefix7(code + "_0") == key;
    assert (list + [e])[|list|] == e;
    assert LatestSharing(list + [e], key) == Some(|list|);
    assert Suffix7(e.code) == "0";
    assert ParseNat("0"[..0]) == 0;
    assert ParseInt("0") == Some(0);
    assert IntToString(1) == "1";
    assert key + "1" == code + "_1";
  }

  /**
   * Taking out the latest entry of a code (entries added after it being of
   * other codes) and inserting that code again gives back the same code:
   * the number is read from the entries that are left.
   */
  lemma DeleteThenInsertReuses(front: seq<TestEntry>, x: TestEntry, back: seq<TestEntry>, code: string)
    requires NextCode(front, code).Success? && x.code == NextCode(front, code).value
    requires x !in front
    requires forall j :: 0 <= j < |back| ==> Prefix7(back[j].code) != Prefix7(code + "_0")
    ensures x in front + [x] + back
    ensures NextCode(RemoveFirst(front + [x] + back, x), code) == Success(x.code)
  {
    RemoveFirstAt(front, x, back);
    LatestSharingAppend(front, back, Prefix7(code + "_0"));
    assert NextCode(front + back, code) == NextCode(front, code);
  }

  /**
   * A code of at most four characters is numbered `code_0`, with nothing
   * after the seventh character, so inserting it a second time raises.
   */
  lemma ShortCodeRepeatRaises(list: seq<TestEntry>, code: string, e: TestEntry)
    requires |code| <= 4
    requires e.code == code + "_0"
    ensures NextCode(list + [e], code) == Failure("ValueError")
  {
    var key := code + "_0";
    assert Prefix7(key) == key;
    assert LatestSharing(list + [e], key) == Some(|list|);
    assert Suffix7(e.code) == "";
  }

  class BackTester {
    var testList: seq<TestEntry>

    constructor ()
      ensures testList == []
    {
      testList := [];
    }

    /**
     * `insert`: an entry of three values is appended under the code
     * `NextCode` gives.  `written` is the caller's list afterwards, whose
     * first element `insert` rewrites in place: already to `code_0` when
     * `int()` then raises.
     */
    method Insert(data: seq<Value>) returns (err: Option<string>, written: seq<Value>)
      modifies this
      ensures |data| != 3 ==> err == Some("ArgumentError") && written == data && testList == old(testList)
      ensures |data| == 3 && !data[0].Str? ==> err == Some("TypeError") && written == data && testList == old(testList)
      ensures |data| == 3 && data[0].Str? && NextCode(old(testList), data[0].s).Failure? ==>
        && err == Some("ValueError")
        && written == data[0 := Str(data[0].s + "_0")]
        && testList == old(testList)
      ensures |data| == 3 && data[0].Str? && NextCode(old(testList), data[0].s).Success? ==>
        var t := NextCode(old(testList), data[0].s).value;
        && err.None?
        && written == data[0 := Str(t)]
        && testList == old(testList) + [TestEntry(t, data[1], data[2])]
    {
      if |data| != 3 {
        return Some("ArgumentError"), data;
      }
      if !data[0].Str? {
        // `data[0] + '_0'` refuses a value that is not text
        return Some("TypeError"), data;
      }
      var code := data[0].s + "_0";
      ghost var key := Prefix7(code);
      var idx := |testList| - 1;
      assert testList[..idx + 1] == testList;
      while idx >= 0
        invariant -1 <= idx < |testList|
        invariant code == data[0].s + "_0"
        invariant LatestSharing(testList, key) == LatestSharing(testList[..idx + 1], key)
        decreases idx
      {
        if Prefix7(code) == Prefix7(testList[idx].code) {
          assert LatestSharing(testList, key) == Some(idx);
          var n := ParseInt(Suffix7(testList[idx].code));
          if n.None? {
            return Some("ValueError"), data[0 := Str(code)];
          }
          code := Prefix7(code) + IntToString(n.value + 1);
          break;
        }
        assert testList[..idx + 1][..idx] == testList[..idx];
        idx := idx - 1;
      }
      testList := testList + [TestEntry(code, data[1], data[2])];
      return None, data[0 := Str(code)];
    }

    method DeleteAll()
      modifies this
      ensures testList == []
    {
      testList := [];
    }

    /** `delete()` pops the last entry; `delete(x)` removes the first entry equal to `x`. */
    method Delete(data: Option<TestEntry>) returns (err: Option<string>)
      modifies this
      ensures data.None? && old(testList) == [] ==> err == Some("IndexError") && testList == old(testList)
      ensures data.None? && old(testList) != [] ==> err.None? && testList == old(testList)[..|old(testList)| - 1]
      ensures data.Some? && data.value !in old(testList) ==> err == Some("ValueError") && testList == old(testList)
      ensures data.Some? && data.value in old(testList) ==> err.None? && testList == RemoveFirst(old(testList), data.value)
    {
      if data.None? {
        if testList == [] {
          return Some("IndexError");
        }
        testList := testList[..|testList| - 1];
      } else {
        if data.value !in testList {
          return Some("ValueError");
        }
        testList := RemoveFirst(testList, data.value);
      }
      err := None;
    }

    /** `get_test_list`: a deep copy, which later changes to the tester do not reach. */
    method GetTestList() returns (r: seq<TestEntry>)
      ensures r == testList
    {
      r := testList;
    }
  }
}
