/**
 * `update_chart_tables` of kostock/update.py: a polling loop over two
 * worker slots, one per series.  A slot is (re)started whenever it is not
 * running and its exit code is not 0, which includes the unstarted
 * `Process()` it begins with; the loop ends once both exit codes are 0,
 * and only then is the sentinel put, the consumer joined and both
 * checkpoint files removed.
 *
 * The worker processes run on their own: what a poll sees of them is an
 * input, the exit code each running slot has reached since the previous
 * poll, if any.  A finite list of such observations bounds the polling.
 */
module UpdateSupervisor {
  import opened Wrappers
  import opened UpdatePlan

  /** A `multiprocessing.Process`: never started, running, or exited with a code. */
  datatype Slot = Unstarted | Running | Exited(code: int)

  /** `exitcode`: `None` until the process has exited. */
  function ExitCode(s: Slot): Option<int>
  {
    if s.Exited? then Some(s.code) else None
  }

  /** `not is_alive() and exitcode != 0`. */
  predicate NeedsLaunch(s: Slot)
  {
    !s.Running? && ExitCode(s) != Some(0)
  }

  /** A running slot that the poll sees exited takes its code; nothing else changes between polls. */
  function Settle(s: Slot, seen: Option<int>): Slot
  {
    if s.Running? && seen.Some? then Exited(seen.value) else s
  }

  datatype Slots = Slots(ohlc: Slot, inv: Slot, ohlcLaunches: nat, invLaunches: nat)

  /** The two launch checks at the top of a poll. */
  function Launch(p: Slots): Slots
  {
    Slots(
      if NeedsLaunch(p.ohlc) then Running else p.ohlc,
      if NeedsLaunch(p.inv) then Running else p.inv,
      p.ohlcLaunches + (if NeedsLaunch(p.ohlc) then 1 else 0),
      p.invLaunches + (if NeedsLaunch(p.inv) then 1 else 0))
  }

  predicate BothDone(p: Slots)
  {
    ExitCode(p.ohlc) == Some(0) && ExitCode(p.inv) == Some(0)
  }

  /**
   * The loop from a poll on: launch, leave when both exit codes are 0,
   * otherwise sleep and see what the workers did.  The flag says whether
   * the loop was left within the observations given.
   */
  function Supervise(p: Slots, seen: seq<(Option<int>, Option<int>)>): (Slots, bool)
    decreases |seen|
  {
    var q := Launch(p);
    if BothDone(q) then (q, true)
    else if seen == [] then (q, false)
    else Supervise(Slots(Settle(q.ohlc, seen[0].0), Settle(q.inv, seen[0].1), q.ohlcLaunches, q.invLaunches), seen[1..])
  }

  /** A slot that is running or has exited with 0: what every poll leaves behind it. */
  predicate Launched(s: Slot)
  {
    s.Running? || s == Exited(0)
  }

  /**
   * After the launch checks no slot is unstarted or failed; the loop is
   * left only with both slots exited with 0; a slot that exited with 0 is
   * never started again.
   */
  lemma {:induction false} SuperviseSpec(p: Slots, seen: seq<(Option<int>, Option<int>)>)
    ensures var (q, left) := Supervise(p, seen);
      && Launched(q.ohlc) && Launched(q.inv)
      && (left <==> BothDone(q))
      && (p.ohlc == Exited(0) ==> q.ohlc == Exited(0) && q.ohlcLaunches == p.ohlcLaunches)
      && (p.inv == Exited(0) ==> q.inv == Exited(0) && q.invLaunches == p.invLaunches)
      && q.ohlcLaunches >= p.ohlcLaunches && q.invLaunches >= p.invLaunches
    decreases |seen|
  {
    var q := Launch(p);
    if !BothDone(q) && seen != [] {
      SuperviseSpec(Slots(Settle(q.ohlc, seen[0].0), Settle(q.inv, seen[0].1), q.ohlcLaunches, q.invLaunches), seen[1..]);
    }
  }

  /**
   * The first poll starts both workers; when each then exits with 0 the
   * loop ends at the next poll with one launch each.
   */
  lemma FirstRunSucceeds(seen: seq<(Option<int>, Option<int>)>)
    requires |seen| >= 1 && seen[0] == (Some(0), Some(0))
    ensures Supervise(Slots(Unstarted, Unstarted, 0, 0), seen) == (Slots(Exited(0), Exited(0), 1, 1), true)
  {
    var q := Launch(Slots(Unstarted, Unstarted, 0, 0));
    assert q == Slots(Running, Running, 1, 1);
    var r := Slots(Exited(0), Exited(0), 1, 1);
    assert Launch(r) == r;
  }

  /** A worker that failed is started again at the next poll, the other slot untouched by it. */
  lemma FailedSlotRestarts(p: Slots, seen: seq<(Option<int>, Option<int>)>, c: int)
    requires p.ohlc == Running && Launched(p.inv) && !BothDone(Launch(p))
    requires |seen| >= 1 && seen[0].0 == Some(c) && c != 0
    ensures Supervise(p, seen).0.ohlcLaunches >= p.ohlcLaunches + 1
  {
    var q := Launch(p);
    assert q.ohlc == Running && q.ohlcLaunches == p.ohlcLaunches;
    var r := Slots(Settle(q.ohlc, seen[0].0), Settle(q.inv, seen[0].1), q.ohlcLaunches, q.invLaunches);
    assert r.ohlc == Exited(c);
    var q2 := Launch(r);
    assert q2.ohlcLaunches == p.ohlcLaunches + 1;
    if !BothDone(q2) && seen[1..] != [] {
      SuperviseSpec(Slots(Settle(q2.ohlc, seen[1..][0].0), Settle(q2.inv, seen[1..][0].1), q2.ohlcLaunches, q2.invLaunches), seen[1..][1..]);
    }
  }

  /** The polling loop of `update_chart_tables`, then its teardown. */
  method UpdateChartTables(seen: seq<(Option<int>, Option<int>)>, ohlcFile: Option<seq<Task>>, invFile: Option<seq<Task>>)
    returns (slots: Slots, left: bool, sentinel: bool, ohlcAfter: Option<seq<Task>>, invAfter: Option<seq<Task>>)
    ensures (slots, left) == Supervise(Slots(Unstarted, Unstarted, 0, 0), seen)
    ensures left ==> slots.ohlc == Exited(0) && slots.inv == Exited(0)
    ensures sentinel <==> left
    ensures left ==> ohlcAfter.None? && invAfter.None?
    ensures !left ==> ohlcAfter == ohlcFile && invAfter == invFile
  {
    slots := Slots(Unstarted, Unstarted, 0, 0);
    ghost var whole := Supervise(slots, seen);
    var k := 0;
    left := false;
    while true
      invariant 0 <= k <= |seen|
      invariant Supervise(slots, seen[k..]) == whole
      decreases |seen| - k
    {
      if NeedsLaunch(slots.ohlc) {
        slots := slots.(ohlc := Running, ohlcLaunches := slots.ohlcLaunches + 1);
      }
      if NeedsLaunch(slots.inv) {
        slots := slots.(inv := Running, invLaunches := slots.invLaunches + 1);
      }
      if ExitCode(slots.ohlc) == Some(0) && ExitCode(slots.inv) == Some(0) {
        left := true;
        break;
      }
      if k == |seen| {
        break;
      }
      assert seen[k..][1..] == seen[k + 1..];
      slots := slots.(ohlc := Settle(slots.ohlc, seen[k].0), inv := Settle(slots.inv, seen[k].1));
      k := k + 1;
    }
    SuperviseSpec(Slots(Unstarted, Unstarted, 0, 0), seen);
    ohlcAfter, invAfter := ohlcFile, invFile;
    sentinel := false;
    if left {
      sentinel := true;
      ohlcAfter, invAfter := None, None;
    }
  }
}
