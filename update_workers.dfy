/**
 * The two chart workers of kostock/update.py, `transmit_ohlc_data` (TR
 * opt10081) and `transmit_investor_data` (TR opt10060).  Each walks its
 * task list in order, puts one message per answered task on the buffer,
 * skips a task whose request raises, and on the request-limit status -1
 * puts the partial chunk, saves the unfinished tasks and exits 1.
 *
 * The broker is a parameter: `src(task, n)` is the reply to the worker's
 * `n`-th request (counted from 0), for the code and date range of `task`.
 * Its rows come newest first, so a chunk's last row is its oldest day.
 */
module UpdateWorkers {
  import opened Wrappers
  import opened Calendar
  import opened StockDb
  import opened UpdatePlan

  datatype OhlcBar = OhlcBar(date: Date, ohlc: Ohlc)
  datatype InvestorBar = InvestorBar(date: Date, inv: Investor)

  /** The DataFrame a request returns: opt10081 prices or opt10060 investor flows. */
  datatype Chunk = OhlcChunk(bars: seq<OhlcBar>) | InvestorChunk(flows: seq<InvestorBar>)

  /** `[code, opt, data, isEnd]` on the buffer; the chunk's kind is the opt. */
  datatype Message = Message(code: string, chunk: Chunk, isEnd: bool)

  /** A broker reply: the request raised, or a status and the rows. */
  datatype Reply<R> = Raised | Answer(status: int, rows: seq<R>)

  /** What a worker process leaves behind: its messages, exit code and saved task list. */
  datatype Run = Run(messages: seq<Message>, exitCode: int, checkpoint: Option<seq<Task>>)

  /** A worker's broker and what its tasks look up. */
  datatype Worker =
    | OhlcWorker(prices: (Task, nat) -> Reply<OhlcBar>, plan: Dict, charts: map<string, Chart>, startDate: Date)
    | InvestorWorker(flows: (Task, nat) -> Reply<InvestorBar>)

  /** How one task ends: skipped, answered, cut by the limit (with the start to save), or a crash. */
  datatype Outcome = Skipped | Finished(chunk: Chunk) | Limited(chunk: Chunk, start: Date) | Crashed

  function Size(c: Chunk): nat
  {
    match c
    case OhlcChunk(bars) => |bars|
    case InvestorChunk(flows) => |flows|
  }

  /** `data.index[-1]` when the chunk has rows (`if data:`), else the update date. */
  function EndOf(c: Chunk, updateDate: Date): Date
  {
    match c
    case OhlcChunk(bars) => if bars != [] then bars[|bars| - 1].date else updateDate
    case InvestorChunk(flows) => if flows != [] then flows[|flows| - 1].date else updateDate
  }

  /**
   * One opt10081 task: after an answer other than -1, a code with a last
   * update has the stored close on or before the chunk's oldest day
   * compared with that day's close; on a mismatch the chunk is dropped and
   * the history from `START_DATE` to the last update is requested instead.
   * A code missing from the plan (KeyError), an empty chunk (IndexError) or
   * a missing chart table ends the process.  The second component is the
   * number of requests made.
   */
  function OhlcStep(src: (Task, nat) -> Reply<OhlcBar>, plan: Dict, charts: map<string, Chart>,
                    startDate: Date, t: Task, calls: nat): (Outcome, nat)
  {
    match src(t, calls)
    case Raised => (Skipped, 1)
    case Answer(status, rows) =>
      if status == -1 then (Limited(OhlcChunk(rows), t.start), 1)
      else if t.code !in plan.values then (Crashed, 1)
      else if plan.values[t.code].last.None? then (Finished(OhlcChunk(rows)), 1)
      else if rows == [] || t.code !in charts then (Crashed, 1)
      else if GetRecentStockPrice(charts[t.code], rows[|rows| - 1].date) == Some(rows[|rows| - 1].ohlc.close)
      then (Finished(OhlcChunk(rows)), 1)
      else
        match src(Task(t.code, startDate, plan.values[t.code].last.value), calls + 1)
        case Raised => (Skipped, 2)
        case Answer(status2, rows2) =>
          if status2 == -1 then (Limited(OhlcChunk(rows2), startDate), 2)
          else (Finished(OhlcChunk(rows2)), 2)
  }

  /** One opt10060 task. */
  function InvestorStep(src: (Task, nat) -> Reply<InvestorBar>, t: Task, calls: nat): (Outcome, nat)
  {
    match src(t, calls)
    case Raised => (Skipped, 1)
    case Answer(status, rows) =>
      if status == -1 then (Limited(InvestorChunk(rows), t.start), 1)
      else (Finished(InvestorChunk(rows)), 1)
  }

  function Step(w: Worker, t: Task, calls: nat): (Outcome, nat)
  {
    match w
    case OhlcWorker(src, plan, charts, startDate) => OhlcStep(src, plan, charts, startDate, t, calls)
    case InvestorWorker(src) => InvestorStep(src, t, calls)
  }

  function Prepend(ms: seq<Message>, run: Run): Run
  {
    Run(ms + run.messages, run.exitCode, run.checkpoint)
  }

  /**
   * The tasks from `i` on, with `calls` requests made: finished tasks put
   * an end message and the walk goes on, skipped tasks put nothing, a
   * crash ends it with exit code 1 and no file, and the limit puts the
   * partial chunk and saves the task (its end moved to the chunk's oldest
   * day) with every task after it.
   */
  function Walk(w: Worker, tasks: seq<Task>, i: nat, calls: nat, updateDate: Date): Run
    decreases |tasks| - i
  {
    if i >= |tasks| then Run([], 0, None)
    else
      var (o, used) := Step(w, tasks[i], calls);
      match o
      case Skipped => Walk(w, tasks, i + 1, calls + used, updateDate)
      case Crashed => Run([], 1, None)
      case Finished(c) => Prepend([Message(tasks[i].code, c, true)], Walk(w, tasks, i + 1, calls + used, updateDate))
      case Limited(c, start) =>
        Run([Message(tasks[i].code, c, false)], 1, Some([Task(tasks[i].code, start, EndOf(c, updateDate))] + tasks[i + 1..]))
  }

  /** `cp` is the unfinished part of `tasks` from task `j` on, task `j` saved with `start` and `end`. */
  predicate UnfinishedSuffix(cp: seq<Task>, tasks: seq<Task>, j: int, start: Date, end: Date)
  {
    && 0 <= j < |tasks|
    && |cp| == |tasks| - j
    && cp[0] == Task(tasks[j].code, start, end)
    && cp[1..] == tasks[j + 1..]
  }

  /** The limit cut the walk at task `j`, whose saved start is `start`. */
  ghost predicate CutAt(run: Run, tasks: seq<Task>, j: int, start: Date, updateDate: Date)
  {
    && run.messages != []
    && var last := run.messages[|run.messages| - 1];
    && !last.isEnd
    && 0 <= j < |tasks| && last.code == tasks[j].code
    && run.checkpoint.Some?
    && UnfinishedSuffix(run.checkpoint.value, tasks, j, start, EndOf(last.chunk, updateDate))
  }

  /** Every message but the last marks its code finished. */
  ghost predicate EndsBeforeLast(ms: seq<Message>)
  {
    forall k :: 0 <= k < |ms| - 1 ==> ms[k].isEnd
  }

  /**
   * The exit code is 0 or 1; exit 0 saves nothing and every message is an
   * end marker; a saved list is exactly the unfinished suffix, starting at
   * the task of the one message that is not an end marker, the last one.
   * The interrupted task keeps its own start, except that the price worker
   * saves `START_DATE` when the cut came on the adjustment re-request.
   */
  ghost predicate Shaped(run: Run, w: Worker, tasks: seq<Task>, i: nat, updateDate: Date)
  {
    && (run.exitCode == 0 || run.exitCode == 1)
    && (run.exitCode == 0 ==> run.checkpoint.None?)
    && (run.checkpoint.None? ==> forall m :: m in run.messages ==> m.isEnd)
    && EndsBeforeLast(run.messages)
    && (run.checkpoint.Some? ==>
          && run.exitCode == 1
          && exists j, start :: i <= j < |tasks| && (start == tasks[j].start || (w.OhlcWorker? && start == w.startDate))
               && CutAt(run, tasks, j, start, updateDate))
  }

  lemma {:induction false} WalkShape(w: Worker, tasks: seq<Task>, i: nat, calls: nat, updateDate: Date)
    ensures Shaped(Walk(w, tasks, i, calls, updateDate), w, tasks, i, updateDate)
    decreases |tasks| - i
  {
    if i < |tasks| {
      var (o, used) := Step(w, tasks[i], calls);
      var run := Walk(w, tasks, i, calls, updateDate);
      match o
      case Skipped =>
        WalkShape(w, tasks, i + 1, calls + used, updateDate);
      case Crashed =>
      case Finished(c) =>
        WalkShape(w, tasks, i + 1, calls + used, updateDate);
        ShapedPrepend(Walk(w, tasks, i + 1, calls + used, updateDate), Message(tasks[i].code, c, true), w, tasks, i, updateDate);
      case Limited(c, start) =>
        ShapedCut(w, tasks, i, calls, updateDate, c, start);
    }
  }

  lemma ShapedPrepend(rest: Run, m: Message, w: Worker, tasks: seq<Task>, i: nat, updateDate: Date)
    requires m.isEnd
    requires Shaped(rest, w, tasks, i + 1, updateDate)
    ensures Shaped(Prepend([m], rest), w, tasks, i, updateDate)
  {
    var run := Prepend([m], rest);
    assert forall k :: 0 < k < |run.messages| ==> run.messages[k] == rest.messages[k - 1];
    if rest.checkpoint.Some? {
      var j, start :| i + 1 <= j < |tasks| && (start == tasks[j].start || (w.OhlcWorker? && start == w.startDate)) && CutAt(rest, tasks, j, start, updateDate);
      assert run.messages[|run.messages| - 1] == rest.messages[|rest.messages| - 1];
      assert CutAt(run, tasks, j, start, updateDate);
    }
  }

  lemma ShapedCut(w: Worker, tasks: seq<Task>, i: nat, calls: nat, updateDate: Date, c: Chunk, start: Date)
    requires i < |tasks| && Step(w, tasks[i], calls).0 == Limited(c, start)
    ensures Shaped(Walk(w, tasks, i, calls, updateDate), w, tasks, i, updateDate)
  {
    var run := Walk(w, tasks, i, calls, updateDate);
    var cp := [Task(tasks[i].code, start, EndOf(c, updateDate))] + tasks[i + 1..];
    assert run == Run([Message(tasks[i].code, c, false)], 1, Some(cp));
    assert cp[1..] == tasks[i + 1..];
    assert start == tasks[i].start || (w.OhlcWorker? && start == w.startDate);
    assert CutAt(run, tasks, i, start, updateDate);
  }

  /**
   * A broker that answers every request without the limit: one end
   * marker per task, in task order, carrying the task's own reply.
   */
  lemma {:induction false} InvestorAllAnswered(src: (Task, nat) -> Reply<InvestorBar>, tasks: seq<Task>, i: nat, updateDate: Date)
    requires i <= |tasks|
    requires forall t, n :: src(t, n).Answer? && src(t, n).status != -1
    ensures var run := Walk(InvestorWorker(src), tasks, i, i, updateDate);
      && run.exitCode == 0 && run.checkpoint.None?
      && |run.messages| == |tasks| - i
      && forall k :: 0 <= k < |run.messages| ==>
           run.messages[k] == Message(tasks[i + k].code, InvestorChunk(src(tasks[i + k], i + k).rows), true)
    decreases |tasks| - i
  {
    if i < |tasks| {
      InvestorAllAnswered(src, tasks, i + 1, updateDate);
    }
  }

  /**
   * update.py:369 asks the `kiwoom` module, not the logged-in client, for
   * opt10060; that lookup raises on every task, so the investor worker
   * puts nothing, saves nothing and exits 0.
   */
  lemma {:induction false} InvestorAsWrittenSendsNothing(tasks: seq<Task>, i: nat, calls: nat, updateDate: Date)
    ensures Walk(InvestorWorker(ModuleLookup()), tasks, i, calls, updateDate) == Run([], 0, None)
    decreases |tasks| - i
  {
    if i < |tasks| {
      InvestorAsWrittenSendsNothing(tasks, i + 1, calls + 1, updateDate);
    }
  }

  /** The reply of `kiwoom.req_opt10060` looked up on the module: an AttributeError, every time. */
  function ModuleLookup(): (src: (Task, nat) -> Reply<InvestorBar>)
    ensures forall t, n :: src(t, n) == Raised
  {
    (t, n) => Raised
  }

  /** Without a last update the first chunk is sent as it came, with no second request. */
  lemma OhlcNoAdjustmentWithoutLastUpdate(src: (Task, nat) -> Reply<OhlcBar>, plan: Dict, charts: map<string, Chart>,
                                          startDate: Date, t: Task, calls: nat)
    requires t.code in plan.values && plan.values[t.code].last.None?
    requires src(t, calls).Answer? && src(t, calls).status != -1
    ensures OhlcStep(src, plan, charts, startDate, t, calls) == (Finished(OhlcChunk(src(t, calls).rows)), 1)
  {
  }

  /**
   * On a price mismatch the first chunk is dropped: what is sent is the
   * history from `START_DATE` up to the last update only, so the days after
   * the last update are never sent, yet that task is marked finished; and
   * when that history is cut by the limit, the saved task starts over from
   * `START_DATE`.
   */
  lemma OhlcAdjustmentResends(src: (Task, nat) -> Reply<OhlcBar>, plan: Dict, charts: map<string, Chart>,
                              startDate: Date, t: Task, calls: nat)
    requires t.code in plan.values && plan.values[t.code].last.Some? && t.code in charts
    requires src(t, calls).Answer? && src(t, calls).status != -1 && src(t, calls).rows != []
    requires var rows := src(t, calls).rows;
      GetRecentStockPrice(charts[t.code], rows[|rows| - 1].date) != Some(rows[|rows| - 1].ohlc.close)
    ensures var again := src(Task(t.code, startDate, plan.values[t.code].last.value), calls + 1);
      && (again.Answer? && again.status != -1 ==>
            OhlcStep(src, plan, charts, startDate, t, calls) == (Finished(OhlcChunk(again.rows)), 2))
      && (again.Answer? && again.status == -1 ==>
            OhlcStep(src, plan, charts, startDate, t, calls) == (Limited(OhlcChunk(again.rows), startDate), 2))
      && (again.Raised? ==> OhlcStep(src, plan, charts, startDate, t, calls) == (Skipped, 2))
  {
  }

  /** A skipped task leaves the messages as they are. */
  lemma SkipStep(w: Worker, tasks: seq<Task>, i: nat, calls: nat, used: nat, updateDate: Date, ms: seq<Message>)
    requires i < |tasks| && Step(w, tasks[i], calls) == (Skipped, used)
    ensures Prepend(ms, Walk(w, tasks, i, calls, updateDate)) == Prepend(ms, Walk(w, tasks, i + 1, calls + used, updateDate))
  {
  }

  /** A finished task adds its end marker. */
  lemma FinishStep(w: Worker, tasks: seq<Task>, i: nat, calls: nat, used: nat, updateDate: Date, ms: seq<Message>, c: Chunk)
    requires i < |tasks| && Step(w, tasks[i], calls) == (Finished(c), used)
    ensures Prepend(ms, Walk(w, tasks, i, calls, updateDate))
         == Prepend(ms + [Message(tasks[i].code, c, true)], Walk(w, tasks, i + 1, calls + used, updateDate))
  {
    var rest := Walk(w, tasks, i + 1, calls + used, updateDate);
    assert ms + ([Message(tasks[i].code, c, true)] + rest.messages) == (ms + [Message(tasks[i].code, c, true)]) + rest.messages;
  }

  /** A crash ends the walk with what was put before it. */
  lemma CrashStep(w: Worker, tasks: seq<Task>, i: nat, calls: nat, used: nat, updateDate: Date, ms: seq<Message>)
    requires i < |tasks| && Step(w, tasks[i], calls) == (Crashed, used)
    ensures Prepend(ms, Walk(w, tasks, i, calls, updateDate)) == Run(ms, 1, None)
  {
    assert ms + [] == ms;
  }

  /** The limit ends the walk with the partial chunk and the saved suffix. */
  lemma CutStep(w: Worker, tasks: seq<Task>, i: nat, calls: nat, used: nat, updateDate: Date, ms: seq<Message>, c: Chunk, start: Date)
    requires i < |tasks| && Step(w, tasks[i], calls) == (Limited(c, start), used)
    ensures Prepend(ms, Walk(w, tasks, i, calls, updateDate))
         == Run(ms + [Message(tasks[i].code, c, false)], 1, Some([Task(tasks[i].code, start, EndOf(c, updateDate))] + tasks[i + 1..]))
  {
  }

  /**
   * The requests `transmit_ohlc_data` makes for one task, with the price
   * adjustment check, and how the task ends.
   */
  method RequestOhlcTask(src: (Task, nat) -> Reply<OhlcBar>, plan: Dict, charts: map<string, Chart>,
                         startDate: Date, t: Task, calls: nat) returns (o: Outcome, used: nat)
    ensures (o, used) == OhlcStep(src, plan, charts, startDate, t, calls)
  {
    var reply := src(t, calls);
    if reply.Raised? {
      return Skipped, 1;
    }
    var state, data := reply.status, reply.rows;
    if state == -1 {
      return Limited(OhlcChunk(data), t.start), 1;
    }
    if t.code !in plan.values {
      return Crashed, 1;
    }
    var last := plan.values[t.code].last;
    if last.Some? {
      if data == [] || t.code !in charts {
        return Crashed, 1;
      }
      var before := GetRecentStockPrice(charts[t.code], data[|data| - 1].date);
      var after := data[|data| - 1].ohlc.close;
      if before != Some(after) {
        var again := src(Task(t.code, startDate, last.value), calls + 1);
        if again.Raised? {
          return Skipped, 2;
        }
        state, data := again.status, again.rows;
        if state == -1 {
          return Limited(OhlcChunk(data), startDate), 2;
        }
        return Finished(OhlcChunk(data)), 2;
      }
    }
    return Finished(OhlcChunk(data)), 1;
  }

  /**
   * The task loop of `transmit_ohlc_data`: the list is changed in place,
   * the interrupted task's start (after a cut re-request) and end.
   */
  method TransmitOhlcTasks(src: (Task, nat) -> Reply<OhlcBar>, plan: Dict, charts: map<string, Chart>,
                           tasks: seq<Task>, startDate: Date, updateDate: Date) returns (run: Run)
    ensures run == Walk(OhlcWorker(src, plan, charts, startDate), tasks, 0, 0, updateDate)
  {
    ghost var w := OhlcWorker(src, plan, charts, startDate);
    ghost var whole := Walk(w, tasks, 0, 0, updateDate);
    var list := tasks;
    var i := 0;
    var calls: nat := 0;
    var cut: Option<Chunk> := None;
    var messages: seq<Message> := [];
    while i < |list|
      invariant 0 <= i <= |list| && list == tasks
      invariant whole == Prepend(messages, Walk(w, tasks, i, calls, updateDate))
      decreases |list| - i
    {
      var o, used := RequestOhlcTask(src, plan, charts, startDate, list[i], calls);
      match o {
        case Skipped =>
          SkipStep(w, tasks, i, calls, used, updateDate, messages);
        case Crashed =>
          CrashStep(w, tasks, i, calls, used, updateDate, messages);
          return Run(messages, 1, None);
        case Limited(c, start) =>
          CutStep(w, tasks, i, calls, used, updateDate, messages, c, start);
          list := list[i := list[i].(start := start)];
          messages := messages + [Message(list[i].code, c, false)];
          cut := Some(c);
          break;
        case Finished(c) =>
          FinishStep(w, tasks, i, calls, used, updateDate, messages, c);
          messages := messages + [Message(list[i].code, c, true)];
      }
      calls, i := calls + used, i + 1;
    }
    if cut.Some? {
      list := list[i := list[i].(end := EndOf(cut.value, updateDate))];
      assert list[i..] == [list[i]] + tasks[i + 1..];
      return Run(messages, 1, Some(list[i..]));
    }
    assert messages + [] == messages;
    return Run(messages, 0, None);
  }

  /** The task loop of `transmit_investor_data`. */
  method TransmitInvestorTasks(src: (Task, nat) -> Reply<InvestorBar>, tasks: seq<Task>, updateDate: Date) returns (run: Run)
    ensures run == Walk(InvestorWorker(src), tasks, 0, 0, updateDate)
  {
    ghost var w := InvestorWorker(src);
    ghost var whole := Walk(w, tasks, 0, 0, updateDate);
    var list := tasks;
    var i := 0;
    var calls: nat := 0;
    var state := 0;
    var data: seq<InvestorBar> := [];
    var messages: seq<Message> := [];
    while i < |list|
      invariant 0 <= i <= |list| && list == tasks
      invariant state != -1
      invariant whole == Prepend(messages, Walk(w, tasks, i, calls, updateDate))
      decreases |list| - i
    {
      var code := list[i].code;
      var reply := src(list[i], calls);
      if reply.Raised? {
        SkipStep(w, tasks, i, calls, 1, updateDate, messages);
        calls, i := calls + 1, i + 1;
        continue;
      }
      state, data := reply.status, reply.rows;
      if state == -1 {
        CutStep(w, tasks, i, calls, 1, updateDate, messages, InvestorChunk(data), list[i].start);
        messages := messages + [Message(code, InvestorChunk(data), false)];
        break;
      }
      FinishStep(w, tasks, i, calls, 1, updateDate, messages, InvestorChunk(data));
      messages := messages + [Message(code, InvestorChunk(data), true)];
      calls, i := calls + 1, i + 1;
    }
    if state == -1 {
      var endDate := if data != [] then data[|data| - 1].date else updateDate;
      list := list[i := list[i].(end := endDate)];
      assert list[i..] == [list[i]] + tasks[i + 1..];
      return Run(messages, 1, Some(list[i..]));
    }
    assert messages + [] == messages;
    return Run(messages, 0, None);
  }

  /**
   * A whole opt10081 worker process: log in under the lock (a failed login
   * exits 1 before any request), take their task list from the checkpoint or
   * the plan, and walk it.
   */
  method TransmitOhlcData(lock: LoginLock, connected: bool, saved: Option<seq<Task>>,
                          src: (Task, nat) -> Reply<OhlcBar>, plan: Dict, charts: map<string, Chart>,
                          startDate: Date, updateDate: Date) returns (run: Run)
    requires !lock.held && ValidDict(plan)
    modifies lock
    ensures !lock.held
    ensures run == if connected
      then Walk(OhlcWorker(src, plan, charts, startDate), LoadUpdateList(saved, plan, updateDate), 0, 0, updateDate)
      else Run([], 1, None)
  {
    var failed := MultiprocLogin(lock, connected);
    if failed.Some? {
      return Run([], failed.value, None);
    }
    var tasks := LoadUpdateList(saved, plan, updateDate);
    run := TransmitOhlcTasks(src, plan, charts, tasks, startDate, updateDate);
  }

  /** A whole opt10060 worker process. */
  method TransmitInvestorData(lock: LoginLock, connected: bool, saved: Option<seq<Task>>,
                              src: (Task, nat) -> Reply<InvestorBar>, plan: Dict, updateDate: Date) returns (run: Run)
    requires !lock.held && ValidDict(plan)
    modifies lock
    ensures !lock.held
    ensures run == if connected
      then Walk(InvestorWorker(src), LoadUpdateList(saved, plan, updateDate), 0, 0, updateDate)
      else Run([], 1, None)
  {
    var failed := MultiprocLogin(lock, connected);
    if failed.Some? {
      return Run([], failed.value, None);
    }
    var tasks := LoadUpdateList(saved, plan, updateDate);
    run := TransmitInvestorTasks(src, tasks, updateDate);
  }
}
