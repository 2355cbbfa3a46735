/**
 * The test list both back testers keep: entries `[code, date, group]`,
 * and Python's `list.remove`, which both `delete` methods use.
 */
module TestList {
  import opened Calendar

  /** The values an entry holds: text or a date. */
  datatype Value = Str(s: string) | Day(d: Date)

  /** One `[code, date, group]` entry of the test list. */
  datatype TestEntry = TestEntry(code: string, date: Value, group: Value)

  /** The position of the first entry equal to `x`. */
  function FirstIndex(list: seq<TestEntry>, x: TestEntry): (i: nat)
    requires x in list
    ensures i < |list| && list[i] == x && x !in list[..i]
  {
    if list[0] == x then 0
    else
      assert x in list[1..] by {
        var j :| 0 <= j < |list| && list[j] == x;
        assert list[1..][j - 1] == x;
      }
      var i := 1 + FirstIndex(list[1..], x);
      assert list[..i] == [list[0]] + list[1..][..i - 1];
      i
  }

  /** `list.remove(x)`: the first equal entry goes, the others keep their order. */
  function RemoveFirst(list: seq<TestEntry>, x: TestEntry): (r: seq<TestEntry>)
    requires x in list
    ensures |r| == |list| - 1
    ensures multiset(r) == multiset(list) - multiset{x}
  {
    var i := FirstIndex(list, x);
    assert list == list[..i] + [x] + list[i + 1..];
    list[..i] + list[i + 1..]
  }

  /** Removing an entry whose first occurrence follows `front` closes the gap it leaves. */
  lemma RemoveFirstAt(front: seq<TestEntry>, x: TestEntry, back: seq<TestEntry>)
    requires x !in front
    ensures x in front + [x] + back
    ensures RemoveFirst(front + [x] + back, x) == front + back
  {
    var list := front + [x] + back;
    assert list[|front|] == x;
    var i := FirstIndex(list, x);
    assert i == |front| by {
      assert forall j :: 0 <= j < |front| ==> list[j] == front[j];
    }
    assert list[..i] == front && list[i + 1..] == back;
  }
}
