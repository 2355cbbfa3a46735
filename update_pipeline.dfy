/**
 * The two workers and the consumer of kostock/update.py together: what
 * the end markers the workers put on the buffer do to `meta_update`, and
 * how a worker cut by the request limit hands its remaining tasks to the
 * next run through its saved list.
 */
module UpdatePipeline {
  import opened Wrappers
  import opened Calendar
  import opened StockDb
  import opened UpdatePlan
  import opened UpdateWorkers
  import opened UpdateConsumer

  /** The codes of the end markers among `ms`, in order. */
  function EndCodes(ms: seq<Message>): seq<string>
  {
    if ms == [] then [] else (if ms[0].isEnd then [ms[0].code] else []) + EndCodes(ms[1..])
  }

  /** The codes of a task list, in order. */
  function Codes(tasks: seq<Task>): seq<string>
  {
    if tasks == [] then [] else [tasks[0].code] + Codes(tasks[1..])
  }

  /** How often `x` occurs in `s`. */
  function Occurrences(s: seq<string>, x: string): nat
  {
    if s == [] then 0 else (if s[0] == x then 1 else 0) + Occurrences(s[1..], x)
  }

  /** The messages as the items a worker puts on the buffer. */
  function Items(ms: seq<Message>): seq<Option<Message>>
  {
    seq(|ms|, k requires 0 <= k < |ms| => Some(ms[k]))
  }

  /** No two tasks share a code. */
  predicate DistinctCodes(tasks: seq<Task>)
  {
    forall j, k :: 0 <= j < k < |tasks| ==> tasks[j].code != tasks[k].code
  }

  lemma {:induction false} EndCodesAppend(a: seq<Message>, b: seq<Message>)
    ensures EndCodes(a + b) == EndCodes(a) + EndCodes(b)
    decreases |a|
  {
    if a != [] {
      assert (a + b)[1..] == a[1..] + b;
      EndCodesAppend(a[1..], b);
    } else {
      assert a + b == b;
    }
  }

  lemma {:induction false} OccurrencesAppend(a: seq<string>, b: seq<string>, x: string)
    ensures Occurrences(a + b, x) == Occurrences(a, x) + Occurrences(b, x)
    decreases |a|
  {
    if a != [] {
      assert (a + b)[1..] == a[1..] + b;
      OccurrencesAppend(a[1..], b, x);
    } else {
      assert a + b == b;
    }
  }

  lemma {:induction false} MarkersCons(item: Option<Message>, rest: seq<Option<Message>>, code: string)
    ensures Markers([item] + rest, code)
         == (if item.Some? && item.value.isEnd && item.value.code == code then 1 else 0) + Markers(rest, code)
    decreases |rest|
  {
    if rest == [] {
      assert ([item] + rest)[..0] == [];
    } else {
      var all := [item] + rest;
      assert all[..|all| - 1] == [item] + rest[..|rest| - 1];
      MarkersCons(item, rest[..|rest| - 1], code);
    }
  }

  /** A code's end markers on the buffer are its occurrences among the end codes. */
  lemma {:induction false} MarkersItems(ms: seq<Message>, code: string)
    ensures Markers(Items(ms), code) == Occurrences(EndCodes(ms), code)
    decreases |ms|
  {
    if ms != [] {
      assert Items(ms) == [Some(ms[0])] + Items(ms[1..]);
      MarkersCons(Some(ms[0]), Items(ms[1..]), code);
      MarkersItems(ms[1..], code);
      OccurrencesAppend(if ms[0].isEnd then [ms[0].code] else [], EndCodes(ms[1..]), code);
    }
  }

  lemma MarkersSentinel(buffer: seq<Option<Message>>, code: string)
    ensures Markers(buffer + [None], code) == Markers(buffer, code)
  {
    assert (buffer + [None])[..|buffer|] == buffer;
  }

  lemma CodesTail(tasks: seq<Task>, i: nat)
    requires i < |tasks|
    ensures Codes(tasks[i..]) == [tasks[i].code] + Codes(tasks[i + 1..])
  {
    assert tasks[i..][1..] == tasks[i + 1..];
  }

  /**
   * A run that neither skips nor crashes loses no task and repeats none:
   * the codes it marked finished, followed by the codes of the list it
   * saved, are the codes of its tasks in order.  The next run, which takes
   * the saved list, therefore asks for exactly the tasks still open.
   */
  lemma {:induction false} NothingLostNothingRepeated(w: Worker, tasks: seq<Task>, i: nat, calls: nat, updateDate: Date)
    requires i <= |tasks|
    requires forall j, c :: i <= j < |tasks| ==> Step(w, tasks[j], c).0.Finished? || Step(w, tasks[j], c).0.Limited?
    ensures Handed(Walk(w, tasks, i, calls, updateDate), tasks[i..])
    decreases |tasks| - i
  {
    if i < |tasks| {
      var (o, used) := Step(w, tasks[i], calls);
      if o.Finished? {
        NothingLostNothingRepeated(w, tasks, i + 1, calls + used, updateDate);
        FinishedCodes(w, tasks, i, calls, used, updateDate, o.chunk);
        CodesTail(tasks, i);
      } else {
        CutCodes(w, tasks, i, calls, used, updateDate, o.chunk, o.start);
        CodesTail(tasks, i);
      }
    } else {
      assert tasks[i..] == [];
    }
  }

  /** The codes `run` marked finished, then those it saved, are the codes of `tasks`. */
  ghost predicate Handed(run: Run, tasks: seq<Task>)
  {
    EndCodes(run.messages) + (if run.checkpoint.Some? then Codes(run.checkpoint.value) else []) == Codes(tasks)
  }

  /**
   * Over a list of distinct codes a cut run never saves a code it marked
   * finished: the next run, which takes the saved list, sends no second
   * end marker of that series for any code this one finished.
   */
  lemma {:induction false} MarkedNotSaved(w: Worker, tasks: seq<Task>, i: nat, calls: nat, updateDate: Date)
    requires i <= |tasks| && DistinctCodes(tasks)
    ensures SavedApart(Walk(w, tasks, i, calls, updateDate))
    decreases |tasks| - i
  {
    if i < |tasks| {
      var (o, used) := Step(w, tasks[i], calls);
      if o.Skipped? {
        MarkedNotSaved(w, tasks, i + 1, calls + used, updateDate);
        SkippedWalk(w, tasks, i, calls, used, updateDate);
      } else if o.Finished? {
        MarkedNotSaved(w, tasks, i + 1, calls + used, updateDate);
        FinishedCodes(w, tasks, i, calls, used, updateDate, o.chunk);
        var rest := Walk(w, tasks, i + 1, calls + used, updateDate);
        if rest.checkpoint.Some? {
          WalkShape(w, tasks, i + 1, calls + used, updateDate);
          FinishedNotSaved(rest, w, tasks, i, updateDate);
        }
      } else if o.Limited? {
        CutCodes(w, tasks, i, calls, used, updateDate, o.chunk, o.start);
      }
    }
  }

  /** No code `run` marked finished is on the list it saved. */
  ghost predicate SavedApart(run: Run)
  {
    run.checkpoint.Some? ==> forall code :: code in EndCodes(run.messages) ==> code !in Codes(run.checkpoint.value)
  }

  /** A cut later in a list of distinct codes does not save the code of task `i`. */
  lemma FinishedNotSaved(rest: Run, w: Worker, tasks: seq<Task>, i: nat, updateDate: Date)
    requires i < |tasks| && DistinctCodes(tasks)
    requires Shaped(rest, w, tasks, i + 1, updateDate) && rest.checkpoint.Some?
    ensures tasks[i].code !in Codes(rest.checkpoint.value)
  {
    var j, start :| i + 1 <= j < |tasks| && CutAt(rest, tasks, j, start, updateDate);
    var cp := rest.checkpoint.value;
    if tasks[i].code in Codes(cp) {
      CodesListed(cp, tasks[i].code);
    }
  }

  /** A finished task puts its code in front of the codes the rest of the walk marks. */
  lemma FinishedCodes(w: Worker, tasks: seq<Task>, i: nat, calls: nat, used: nat, updateDate: Date, c: Chunk)
    requires i < |tasks| && Step(w, tasks[i], calls) == (Finished(c), used)
    ensures var run := Walk(w, tasks, i, calls, updateDate);
      var rest := Walk(w, tasks, i + 1, calls + used, updateDate);
      && run.checkpoint == rest.checkpoint && run.exitCode == rest.exitCode
      && run.messages == [Message(tasks[i].code, c, true)] + rest.messages
      && EndCodes(run.messages) == [tasks[i].code] + EndCodes(rest.messages)
  {
    var rest := Walk(w, tasks, i + 1, calls + used, updateDate);
    assert ([Message(tasks[i].code, c, true)] + rest.messages)[1..] == rest.messages;
  }

  /** A task cut by the limit marks nothing and saves its code in front of the rest. */
  lemma CutCodes(w: Worker, tasks: seq<Task>, i: nat, calls: nat, used: nat, updateDate: Date, c: Chunk, start: Date)
    requires i < |tasks| && Step(w, tasks[i], calls) == (Limited(c, start), used)
    ensures var run := Walk(w, tasks, i, calls, updateDate);
      && EndCodes(run.messages) == []
      && run.checkpoint.Some? && Codes(run.checkpoint.value) == [tasks[i].code] + Codes(tasks[i + 1..])
  {
    var cp := [Task(tasks[i].code, start, EndOf(c, updateDate))] + tasks[i + 1..];
    assert cp[1..] == tasks[i + 1..];
    assert EndCodes([Message(tasks[i].code, c, false)]) == [];
  }

  /** When every task is answered, the run exits 0, saves nothing and marks each task's code, in order. */
  lemma {:induction false} AllFinished(w: Worker, tasks: seq<Task>, i: nat, calls: nat, updateDate: Date)
    requires i <= |tasks|
    requires forall j, c :: i <= j < |tasks| ==> Step(w, tasks[j], c).0.Finished?
    ensures var run := Walk(w, tasks, i, calls, updateDate);
      run.exitCode == 0 && run.checkpoint.None? && EndCodes(run.messages) == Codes(tasks[i..])
    decreases |tasks| - i
  {
    if i < |tasks| {
      var (o, used) := Step(w, tasks[i], calls);
      CodesTail(tasks, i);
      AllFinished(w, tasks, i + 1, calls + used, updateDate);
      FinishedCodes(w, tasks, i, calls, used, updateDate, o.chunk);
    }
  }

  /** A run marks a code finished at most as often as the code occurs among its tasks. */
  lemma {:induction false} MarkedAtMostListed(w: Worker, tasks: seq<Task>, i: nat, calls: nat, updateDate: Date, code: string)
    requires i <= |tasks|
    ensures MarkedAtMost(Walk(w, tasks, i, calls, updateDate), tasks[i..], code)
    decreases |tasks| - i
  {
    if i < |tasks| {
      var (o, used) := Step(w, tasks[i], calls);
      if o.Skipped? {
        MarkedAtMostListed(w, tasks, i + 1, calls + used, updateDate, code);
        SkippedWalk(w, tasks, i, calls, used, updateDate);
        CodesTail(tasks, i);
        OccurrencesAppend([tasks[i].code], Codes(tasks[i + 1..]), code);
      } else if o.Finished? {
        MarkedAtMostListed(w, tasks, i + 1, calls + used, updateDate, code);
        FinishedCodes(w, tasks, i, calls, used, updateDate, o.chunk);
        CodesTail(tasks, i);
        OccurrencesAppend([tasks[i].code], Codes(tasks[i + 1..]), code);
        OccurrencesAppend([tasks[i].code], EndCodes(Walk(w, tasks, i + 1, calls + used, updateDate).messages), code);
      } else if o.Limited? {
        CutCodes(w, tasks, i, calls, used, updateDate, o.chunk, o.start);
      }
    }
  }

  /** A skipped task leaves the walk as the rest of it. */
  lemma SkippedWalk(w: Worker, tasks: seq<Task>, i: nat, calls: nat, used: nat, updateDate: Date)
    requires i < |tasks| && Step(w, tasks[i], calls) == (Skipped, used)
    ensures Walk(w, tasks, i, calls, updateDate) == Walk(w, tasks, i + 1, calls + used, updateDate)
  {
  }

  /** `run` marked `code` finished at most as often as it occurs in `tasks`. */
  ghost predicate MarkedAtMost(run: Run, tasks: seq<Task>, code: string)
  {
    Occurrences(EndCodes(run.messages), code) <= Occurrences(Codes(tasks), code)
  }

  /** In a list of distinct codes each code occurs at most once, and a listed code exactly once. */
  lemma {:induction false} DistinctOccurrences(tasks: seq<Task>, code: string)
    requires DistinctCodes(tasks)
    ensures Occurrences(Codes(tasks), code) <= 1
    ensures (exists j :: 0 <= j < |tasks| && tasks[j].code == code) ==> Occurrences(Codes(tasks), code) == 1
    decreases |tasks|
  {
    if tasks != [] {
      DistinctOccurrences(tasks[1..], code);
      if tasks[0].code == code {
        Absent(tasks[1..], code);
      } else if exists j :: 0 <= j < |tasks| && tasks[j].code == code {
        var j :| 0 <= j < |tasks| && tasks[j].code == code;
        assert tasks[1..][j - 1].code == code;
      }
    }
  }

  lemma {:induction false} Absent(tasks: seq<Task>, code: string)
    requires forall j :: 0 <= j < |tasks| ==> tasks[j].code != code
    ensures Occurrences(Codes(tasks), code) == 0
    decreases |tasks|
  {
    if tasks != [] {
      Absent(tasks[1..], code);
    }
  }

  /**
   * The pipeline as written: the investor worker puts nothing (update.py
   * line 369), so over a task list of distinct codes one run of the price
   * worker gives no code a second end marker and `meta_update` does not
   * change, whatever that run sends.
   */
  lemma AsWrittenNeverMarksUpdated(s: Consumer, src: (Task, nat) -> Reply<OhlcBar>, plan: Dict, charts: map<string, Chart>,
                                   startDate: Date, tasks: seq<Task>, updateDate: Date)
    requires s.counts == map[] && DistinctCodes(tasks)
    ensures Walk(InvestorWorker(ModuleLookup()), tasks, 0, 0, updateDate).messages == []
    ensures var prices := Walk(OhlcWorker(src, plan, charts, startDate), tasks, 0, 0, updateDate);
      Consume(s, Items(prices.messages) + [None], updateDate).state.meta == s.meta
  {
    InvestorAsWrittenSendsNothing(tasks, 0, 0, updateDate);
    var ms := Walk(OhlcWorker(src, plan, charts, startDate), tasks, 0, 0, updateDate).messages;
    assert tasks[0..] == tasks;
    forall code
      ensures Markers(Items(ms) + [None], code) <= 1
    {
      MarkersSentinel(Items(ms), code);
      MarkersItems(ms, code);
      MarkedAtMostListed(OhlcWorker(src, plan, charts, startDate), tasks, 0, 0, updateDate, code);
      DistinctOccurrences(tasks, code);
    }
    OneSeriesNeverMoves(s, Items(ms) + [None], updateDate);
  }

  /**
   * A price worker that finishes the first code and then crashes (a
   * later code has a last update but no chart table) exits 1 and saves
   * nothing.  The supervisor relaunches it on the full list, where it
   * finishes the first code again and crashes again, so the first code
   * collects two price end markers and its update date moves although no
   * investor row arrived; the relaunched run is the same, so the loop of
   * update.py lines 248-261 never ends.
   */
  lemma CrashRelaunchMovesOnPriceOnly(s: Consumer, src: (Task, nat) -> Reply<OhlcBar>, plan: Dict, charts: map<string, Chart>,
                                      startDate: Date, updateDate: Date)
    requires ValidDict(plan) && s.counts == map[]
    requires var tasks := LoadUpdateList(None, plan, updateDate);
      var w := OhlcWorker(src, plan, charts, startDate);
      && |tasks| >= 2
      && Step(w, tasks[0], 0).0.Finished?
      && Step(w, tasks[1], Step(w, tasks[0], 0).1).0.Crashed?
      && tasks[0].code in s.charts && ChartTable(tasks[0].code) in s.meta
    ensures var tasks := LoadUpdateList(None, plan, updateDate);
      var w := OhlcWorker(src, plan, charts, startDate);
      var run1 := Walk(w, tasks, 0, 0, updateDate);
      var run2 := Walk(w, LoadUpdateList(run1.checkpoint, plan, updateDate), 0, 0, updateDate);
      && run1.exitCode == 1 && run1.checkpoint.None?
      && run2 == run1
      && EndCodes(run1.messages) == [tasks[0].code]
      && Walk(InvestorWorker(ModuleLookup()), tasks, 0, 0, updateDate).messages == []
      && Consume(s, Items(run1.messages + run2.messages), updateDate).state.meta.Keys == s.meta.Keys
      && Consume(s, Items(run1.messages + run2.messages), updateDate).state.meta[ChartTable(tasks[0].code)]
         == s.meta[ChartTable(tasks[0].code)].(updateDate := Some(updateDate))
  {
    var tasks := LoadUpdateList(None, plan, updateDate);
    var w := OhlcWorker(src, plan, charts, startDate);
    var (o, used) := Step(w, tasks[0], 0);
    FinishedCodes(w, tasks, 0, 0, used, updateDate, o.chunk);
    var m := Message(tasks[0].code, o.chunk, true);
    assert Walk(w, tasks, 0, 0, updateDate).messages == [m];
    InvestorAsWrittenSendsNothing(tasks, 0, 0, updateDate);
    TwiceMoves(s, m, updateDate);
  }

  /** The same end marker twice from empty counts moves its code's update date. */
  lemma TwiceMoves(s: Consumer, m: Message, updateDate: Date)
    requires s.counts == map[] && m.isEnd && m.code in s.charts && ChartTable(m.code) in s.meta
    ensures Consume(s, Items([m] + [m]), updateDate).state.meta.Keys == s.meta.Keys
    ensures Consume(s, Items([m] + [m]), updateDate).state.meta[ChartTable(m.code)]
         == s.meta[ChartTable(m.code)].(updateDate := Some(updateDate))
  {
    WholeBufferCounted(s, [m] + [m], updateDate);
    MarkersItems([m] + [m], m.code);
    OneEndCode(m);
    EndCodesAppend([m], [m]);
    OccurrencesAppend([m.code], [m.code], m.code);
    assert ChartTable(m.code)[2..] == m.code;
  }

  lemma OneEndCode(m: Message)
    ensures EndCodes([m]) == if m.isEnd then [m.code] else []
  {
    assert [m][1..] == [];
  }

  /** Messages whose codes all have chart tables, from empty counts, are all counted. */
  lemma WholeBufferCounted(s: Consumer, ms: seq<Message>, updateDate: Date)
    requires s.counts == map[]
    requires forall k :: 0 <= k < |ms| ==> ms[k].code in s.charts
    ensures var e := Consume(s, Items(ms), updateDate);
      && e.state.meta.Keys == s.meta.Keys
      && forall name :: name in s.meta ==> e.state.meta[name] == Moved(s.meta[name], name, Items(ms), updateDate)
  {
    var buffer := Items(ms);
    ConsumeNeverDies(s, buffer, updateDate);
    ConsumeStops(s, buffer, updateDate);
    ConsumeCounts(s, buffer, updateDate);
    var e := Consume(s, buffer, updateDate);
    assert e.taken == |buffer|;
    assert buffer[..e.taken] == buffer;
  }

  /**
   * A worker process as written after its loop: on a cut, `if data:` at
   * update.py line 346 asks a DataFrame for its truth value, which raises,
   * so the process exits 1 before the pickle dump and saves nothing.
   */
  function AsWrittenExit(run: Run): Run
  {
    if run.checkpoint.Some? then Run(run.messages, 1, None) else run
  }

  /**
   * As written a cut loses its saved list: a price worker that finishes
   * the first code and is cut on the second exits 1 with no file, the
   * supervisor relaunches it on the full list, the relaunch repeats the
   * same run, and the first code's two price end markers move its update
   * date with no investor row.
   */
  lemma AsWrittenCutRestartsFromScratch(s: Consumer, src: (Task, nat) -> Reply<OhlcBar>, plan: Dict, charts: map<string, Chart>,
                                        startDate: Date, updateDate: Date)
    requires ValidDict(plan) && s.counts == map[]
    requires var tasks := LoadUpdateList(None, plan, updateDate);
      var w := OhlcWorker(src, plan, charts, startDate);
      && |tasks| >= 2
      && Step(w, tasks[0], 0).0.Finished?
      && Step(w, tasks[1], Step(w, tasks[0], 0).1).0.Limited?
      && tasks[0].code in s.charts && tasks[1].code in s.charts && ChartTable(tasks[0].code) in s.meta
    ensures var tasks := LoadUpdateList(None, plan, updateDate);
      var w := OhlcWorker(src, plan, charts, startDate);
      var run1 := AsWrittenExit(Walk(w, tasks, 0, 0, updateDate));
      var run2 := AsWrittenExit(Walk(w, LoadUpdateList(run1.checkpoint, plan, updateDate), 0, 0, updateDate));
      && Walk(w, tasks, 0, 0, updateDate).checkpoint.Some?
      && run1.exitCode == 1 && run1.checkpoint.None?
      && run2 == run1
      && EndCodes(run1.messages) == [tasks[0].code]
      && Consume(s, Items(run1.messages + run2.messages), updateDate).state.meta.Keys == s.meta.Keys
      && Consume(s, Items(run1.messages + run2.messages), updateDate).state.meta[ChartTable(tasks[0].code)]
         == s.meta[ChartTable(tasks[0].code)].(updateDate := Some(updateDate))
  {
    var tasks := LoadUpdateList(None, plan, updateDate);
    var w := OhlcWorker(src, plan, charts, startDate);
    var (o, used) := Step(w, tasks[0], 0);
    var (o2, used2) := Step(w, tasks[1], used);
    FinishedCodes(w, tasks, 0, 0, used, updateDate, o.chunk);
    CutCodes(w, tasks, 1, used, used2, updateDate, o2.chunk, o2.start);
    var m := Message(tasks[0].code, o.chunk, true);
    var p := Message(tasks[1].code, o2.chunk, false);
    assert Walk(w, tasks, 0, 0, updateDate).messages == [m, p];
    CutThenAgainMoves(s, m, p, updateDate);
  }

  /** An end marker and a partial chunk, twice, from empty counts move the marker's code. */
  lemma CutThenAgainMoves(s: Consumer, m: Message, p: Message, updateDate: Date)
    requires s.counts == map[] && m.isEnd && !p.isEnd
    requires m.code in s.charts && p.code in s.charts && ChartTable(m.code) in s.meta
    ensures Consume(s, Items([m, p] + [m, p]), updateDate).state.meta.Keys == s.meta.Keys
    ensures Consume(s, Items([m, p] + [m, p]), updateDate).state.meta[ChartTable(m.code)]
         == s.meta[ChartTable(m.code)].(updateDate := Some(updateDate))
  {
    var ms := [m, p] + [m, p];
    WholeBufferCounted(s, ms, updateDate);
    MarkersItems(ms, m.code);
    OneEndCode(m);
    OneEndCode(p);
    EndCodesAppend([m], [p]);
    EndCodesAppend([m, p], [m, p]);
    assert [m] + [p] == [m, p];
    OccurrencesAppend([m.code], [m.code], m.code);
    assert ChartTable(m.code)[2..] == m.code;
  }

  /** A buffer whose every message has its chart table is consumed without an error. */
  lemma {:induction false} ConsumeNeverDies(s: Consumer, buffer: seq<Option<Message>>, updateDate: Date)
    requires forall j :: 0 <= j < |buffer| && buffer[j].Some? ==> buffer[j].value.code in s.charts
    ensures Consume(s, buffer, updateDate).how != Died
    decreases |buffer|
  {
    if buffer != [] && buffer[0].Some? {
      var m := buffer[0].value;
      var t := Receive(s, m, updateDate).value;
      assert t.charts.Keys == s.charts.Keys;
      assert forall j :: 0 <= j < |buffer| - 1 ==> buffer[1..][j] == buffer[j + 1];
      ConsumeNeverDies(t, buffer[1..], updateDate);
    }
  }

  /**
   * Messages whose codes all have chart tables, followed by the sentinel,
   * are all applied and the consumer stops at the sentinel.
   */
  lemma ReachesSentinel(s: Consumer, ms: seq<Message>, updateDate: Date)
    requires forall m :: m in ms ==> m.code in s.charts
    ensures var e := Consume(s, Items(ms) + [None], updateDate);
      e.how == Sentinel && e.taken == |ms| && (Items(ms) + [None])[..e.taken] == Items(ms)
  {
    var buffer := Items(ms) + [None];
    assert forall j :: 0 <= j < |ms| ==> buffer[j] == Some(ms[j]);
    ConsumeNeverDies(s, buffer, updateDate);
    ConsumeStops(s, buffer, updateDate);
    var e := Consume(s, buffer, updateDate);
    assert buffer[|ms|] == None;
    assert buffer[..e.taken] == Items(ms);
  }

  /**
   * The pipeline with the investor worker asking the logged-in client:
   * when both brokers answer every task and every code has its chart
   * table, the consumer reaches the sentinel and every task's code is
   * marked updated to the update date.
   */
  lemma BothSeriesMarkUpdated(s: Consumer, prices: (Task, nat) -> Reply<OhlcBar>, plan: Dict, charts: map<string, Chart>,
                              startDate: Date, flows: (Task, nat) -> Reply<InvestorBar>, tasks: seq<Task>, updateDate: Date)
    requires s.counts == map[] && DistinctCodes(tasks)
    requires forall j, c :: 0 <= j < |tasks| ==> Step(OhlcWorker(prices, plan, charts, startDate), tasks[j], c).0.Finished?
    requires forall t, n :: flows(t, n).Answer? && flows(t, n).status != -1
    requires forall j :: 0 <= j < |tasks| ==> tasks[j].code in s.charts
    ensures var ms := Walk(OhlcWorker(prices, plan, charts, startDate), tasks, 0, 0, updateDate).messages
                    + Walk(InvestorWorker(flows), tasks, 0, 0, updateDate).messages;
      var e := Consume(s, Items(ms) + [None], updateDate);
      && e.how == Sentinel
      && e.state.meta.Keys == s.meta.Keys
      && forall j :: 0 <= j < |tasks| && ChartTable(tasks[j].code) in s.meta ==>
           e.state.meta[ChartTable(tasks[j].code)] == s.meta[ChartTable(tasks[j].code)].(updateDate := Some(updateDate))
  {
    var ow := OhlcWorker(prices, plan, charts, startDate);
    var iw := InvestorWorker(flows);
    var a := Walk(ow, tasks, 0, 0, updateDate).messages;
    var b := Walk(iw, tasks, 0, 0, updateDate).messages;
    assert tasks[0..] == tasks;
    AllFinished(ow, tasks, 0, 0, updateDate);
    AllFinished(iw, tasks, 0, 0, updateDate);
    EndCodesAppend(a, b);
    forall m: Message | m in a + b
      ensures m.code in s.charts
    {
      EndCodesCover(ow, tasks, 0, 0, updateDate);
      EndCodesCover(iw, tasks, 0, 0, updateDate);
      CodesListed(tasks, m.code);
    }
    ReachesSentinel(s, a + b, updateDate);
    var buffer := Items(a + b) + [None];
    ConsumeCounts(s, buffer, updateDate);
    forall j | 0 <= j < |tasks| && ChartTable(tasks[j].code) in s.meta
      ensures Markers(Items(a + b), tasks[j].code) == 2
    {
      var code := tasks[j].code;
      MarkersItems(a + b, code);
      OccurrencesAppend(EndCodes(a), EndCodes(b), code);
      DistinctOccurrences(tasks, code);
    }
  }

  /** Every message a walk puts carries the code of one of its tasks. */
  lemma {:induction false} EndCodesCover(w: Worker, tasks: seq<Task>, i: nat, calls: nat, updateDate: Date)
    requires i <= |tasks|
    ensures CodesFrom(Walk(w, tasks, i, calls, updateDate), tasks[i..])
    decreases |tasks| - i
  {
    if i < |tasks| {
      var (o, used) := Step(w, tasks[i], calls);
      CodesTail(tasks, i);
      if o.Skipped? || o.Finished? {
        EndCodesCover(w, tasks, i + 1, calls + used, updateDate);
      }
    }
  }

  /** Every message of `run` carries a code of `tasks`. */
  ghost predicate CodesFrom(run: Run, tasks: seq<Task>)
  {
    forall m :: m in run.messages ==> m.code in Codes(tasks)
  }

  /** A code among a list's codes is the code of one of its tasks. */
  lemma {:induction false} CodesListed(tasks: seq<Task>, code: string)
    requires code in Codes(tasks)
    ensures exists j :: 0 <= j < |tasks| && tasks[j].code == code
    decreases |tasks|
  {
    if tasks[0].code != code {
      CodesListed(tasks[1..], code);
      var j :| 0 <= j < |tasks| - 1 && tasks[1..][j].code == code;
      assert tasks[j + 1].code == code;
    }
  }
}
