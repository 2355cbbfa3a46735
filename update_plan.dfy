/**
 * The decisions kostock/update.py makes before any chart data moves: the
 * two update dates, whether the stock list is refreshed, whether charts
 * are transferred, which codes are updated from which date, where each
 * worker's task list comes from, and the login lock the workers share.
 */
module UpdatePlan {
  import opened Wrappers
  import opened Calendar
  import opened StockDb
  import opened QpkgUtils

  // ---------------------------------------------------------------------
  // Small decisions

  /**
   * `get_update_date`: the chart date is the latest trading day on or
   * before the configured date (today when none is configured); the stock
   * list date is the latest trading day before the chart date.  Stepping
   * back past 0001-01-01 is Python's OverflowError.
   */
  method GetUpdateDate(configured: Option<Date>, today: Date, closed: seq<Date>) returns (r: Result<(Date, Date)>)
    requires today >= 1
    requires configured.Some? ==> configured.value >= 1
    ensures var base := if configured.Some? then configured.value else today;
      r.Success? ==>
        var (sinfo, chart) := r.value;
        && chart <= base && IsTradingDay(chart, closed)
        && (forall d :: chart < d <= base ==> !IsTradingDay(d, closed))
        && 1 <= sinfo < chart && IsTradingDay(sinfo, closed)
        && (forall d :: sinfo < d < chart ==> !IsTradingDay(d, closed))
    ensures var base := if configured.Some? then configured.value else today;
      r.Failure? ==>
        && r.error == "OverflowError"
        && forall s, c :: 1 <= s < c <= base && IsTradingDay(c, closed) ==> !IsTradingDay(s, closed)
  {
    var base := if configured.Some? then configured.value else today;
    var chart := GetLatestTradingDate(base, closed);
    if chart.None? || chart.value == 1 {
      return Failure("OverflowError");
    }
    var sinfo := GetLatestTradingDate(chart.value - 1, closed);
    if sinfo.None? {
      return Failure("OverflowError");
    }
    r := Success((sinfo.value, chart.value));
  }

  /** `get_latest_trading_date(date, url, service_key)` of kostock/qutils.py, the one update.py imports. */
  const KostockLatestTradingDateParams: nat := 3

  /**
   * The call `get_latest_trading_date(update_date, CLOSED_DAYS_EXCEL_PATH)`
   * of `get_update_date` binds two positional arguments; against a
   * function of `params` parameters without defaults Python raises
   * TypeError unless there are exactly two.
   */
  function TwoArgumentCall(params: nat): (r: Result<()>)
    ensures r.Success? <==> params == 2
    ensures r.Failure? ==> r.error == "TypeError"
  {
    if params == 2 then Success(()) else Failure("TypeError")
  }

  /**
   * As written `get_update_date` raises TypeError at its first call, so
   * `Update.run` stops before any date is computed; `GetUpdateDate` is the
   * two-parameter closed-days search of qpkg/qutils.py that the call's
   * arguments fit.
   */
  lemma GetUpdateDateAsWrittenRaises()
    ensures TwoArgumentCall(KostockLatestTradingDateParams) == Failure("TypeError")
    ensures TwoArgumentCall(2).Success?
  {
  }

  /**
   * `check_sinfo_update`: the stock list is refreshed when it has never
   * been (no `stock_info` row) or when its last refresh is at least 30
   * days before `updateDate`.  A row with a NULL date makes the
   * subtraction raise TypeError.
   */
  function CheckSinfoUpdate(meta: map<string, MetaRow>, updateDate: Date): (r: Result<bool>)
    ensures SinfoTable !in meta ==> r == Success(true)
    ensures SinfoTable in meta && meta[SinfoTable].updateDate.None? ==> r == Failure("TypeError")
    ensures SinfoTable in meta && meta[SinfoTable].updateDate.Some? ==>
      (r == Success(true) <==> updateDate >= meta[SinfoTable].updateDate.value + 30)
    ensures r.Success? ==> (r.value <==> SinfoTable !in meta || updateDate - meta[SinfoTable].updateDate.value >= 30)
  {
    if SinfoTable !in meta then Success(true)
    else if meta[SinfoTable].updateDate.None? then Failure("TypeError")
    else Success(updateDate - meta[SinfoTable].updateDate.value >= 30)
  }

  /** `check_manual_transfer`: the setting must be exactly True or False. */
  function CheckManualTransfer(setting: Flag): (r: Result<bool>)
    ensures r.Success? <==> setting != OtherValue
    ensures r.Success? ==> (r.value <==> setting == IsTrue)
    ensures r.Failure? ==> r.error == "ReferenceError"
  {
    match setting
    case IsTrue => Success(true)
    case IsFalse => Success(false)
    case OtherValue => Failure("ReferenceError")
  }

  // ---------------------------------------------------------------------
  // The planner

  /** What `get_chart_update_dict` stores for a code: listing date, last update, start date. */
  datatype Plan = Plan(listing: Option<Date>, last: Option<Date>, latest: Date)

  /** A Python dictionary: its keys in insertion order and the value of each. */
  datatype Dict = Dict(order: seq<string>, values: map<string, Plan>)

  predicate ValidDict(d: Dict)
  {
    && (forall i, j :: 0 <= i < j < |d.order| ==> d.order[i] != d.order[j])
    && (forall k :: k in d.values ==> k in d.order)
    && (forall i :: 0 <= i < |d.order| ==> d.order[i] in d.values)
  }

  /** `d[k] = v`: a new key goes last, an existing key keeps its place. */
  function Put(d: Dict, k: string, v: Plan): Dict
  {
    Dict(if k in d.values then d.order else d.order + [k], d.values[k := v])
  }

  lemma PutValid(d: Dict, k: string, v: Plan)
    requires ValidDict(d)
    ensures ValidDict(Put(d, k, v))
    ensures Put(d, k, v).values.Keys == d.values.Keys + {k}
    ensures Put(d, k, v).values[k] == v
  {
    var o := Put(d, k, v).order;
    if k !in d.values {
      assert forall i :: 0 <= i < |d.order| ==> o[i] == d.order[i];
    }
  }

  /** The code of a chart table: its name without the two-character prefix. */
  function CodeOf(name: string): (code: string)
    ensures |name| >= 2 ==> name == name[..2] + code
  {
    if |name| >= 2 then name[2..] else ""
  }

  /**
   * The start date of a meta row: the last update when there is one, the
   * listing date when later than `START_DATE`, else `START_DATE`.  A row
   * with neither date makes `None > start_date` raise TypeError.
   */
  function StartOf(row: MetaRow, startDate: Date): Result<Date>
  {
    if row.updateDate.Some? then Success(row.updateDate.value)
    else if row.listingDate.None? then Failure("TypeError")
    else if row.listingDate.value > startDate then Success(row.listingDate.value)
    else Success(startDate)
  }

  /** A row is planned when its start date comes before the update date. */
  predicate Included(row: MetaRow, startDate: Date, updateDate: Date)
  {
    StartOf(row, startDate).Success? && StartOf(row, startDate).value < updateDate
  }

  function PlanOf(row: MetaRow, startDate: Date): Plan
    requires StartOf(row, startDate).Success?
  {
    Plan(row.listingDate, row.updateDate, StartOf(row, startDate).value)
  }

  /** The start date is the last update, or the later of the listing date and `START_DATE`. */
  lemma StartRule(row: MetaRow, startDate: Date)
    ensures StartOf(row, startDate).Failure? <==> row.updateDate.None? && row.listingDate.None?
    ensures row.updateDate.Some? ==> StartOf(row, startDate) == Success(row.updateDate.value)
    ensures row.updateDate.None? && row.listingDate.Some? ==>
      var s := StartOf(row, startDate).value;
      && s >= startDate && s >= row.listingDate.value
      && (s == startDate || s == row.listingDate.value)
  {
  }

  /**
   * `get_chart_update_dict` over the rows `get_chart_from_meta` returns,
   * in the order the query returns them.
   */
  function ChartUpdateDict(rows: seq<(string, MetaRow)>, startDate: Date, updateDate: Date): Result<Dict>
  {
    if rows == [] then Success(Dict([], map[]))
    else
      match ChartUpdateDict(rows[..|rows| - 1], startDate, updateDate)
      case Failure(e) => Failure(e)
      case Success(d) =>
        var (name, row) := rows[|rows| - 1];
        match StartOf(row, startDate)
        case Failure(e) => Failure(e)
        case Success(latest) =>
          if latest < updateDate then Success(Put(d, CodeOf(name), Plan(row.listingDate, row.updateDate, latest)))
          else Success(d)
  }

  /** Row `i` is an included row of code `k` whose plan is `p`. */
  ghost predicate PlannedAt(rows: seq<(string, MetaRow)>, i: int, k: string, p: Plan, startDate: Date, updateDate: Date)
  {
    && 0 <= i < |rows| && CodeOf(rows[i].0) == k
    && Included(rows[i].1, startDate, updateDate) && p == PlanOf(rows[i].1, startDate)
  }

  /** Row `i` is included and no later included row has its code. */
  ghost predicate LastIncluded(rows: seq<(string, MetaRow)>, i: int, startDate: Date, updateDate: Date)
  {
    && 0 <= i < |rows| && Included(rows[i].1, startDate, updateDate)
    && forall j :: i < j < |rows| && Included(rows[j].1, startDate, updateDate) ==> CodeOf(rows[j].0) != CodeOf(rows[i].0)
  }

  /** Every planned code comes from an included row, with that row's plan. */
  ghost predicate PlansFromRows(d: Dict, rows: seq<(string, MetaRow)>, startDate: Date, updateDate: Date)
  {
    forall k :: k in d.values ==> exists i :: PlannedAt(rows, i, k, d.values[k], startDate, updateDate)
  }

  /** Every included row's code is planned. */
  ghost predicate RowsPlanned(d: Dict, rows: seq<(string, MetaRow)>, startDate: Date, updateDate: Date)
  {
    forall i :: 0 <= i < |rows| && Included(rows[i].1, startDate, updateDate) ==> CodeOf(rows[i].0) in d.values
  }

  /** The last included row of a code gives the code's plan. */
  ghost predicate LastRowWins(d: Dict, rows: seq<(string, MetaRow)>, startDate: Date, updateDate: Date)
  {
    forall i :: LastIncluded(rows, i, startDate, updateDate) ==>
      CodeOf(rows[i].0) in d.values && d.values[CodeOf(rows[i].0)] == PlanOf(rows[i].1, startDate)
  }

  ghost predicate PlannedFrom(d: Dict, rows: seq<(string, MetaRow)>, startDate: Date, updateDate: Date)
  {
    && ValidDict(d)
    && PlansFromRows(d, rows, startDate, updateDate)
    && RowsPlanned(d, rows, startDate, updateDate)
    && LastRowWins(d, rows, startDate, updateDate)
  }

  /** The planner fails exactly when some row has neither a last update nor a listing date. */
  lemma {:induction false} ChartUpdateDictFails(rows: seq<(string, MetaRow)>, startDate: Date, updateDate: Date)
    ensures ChartUpdateDict(rows, startDate, updateDate).Failure? <==>
      exists i :: 0 <= i < |rows| && StartOf(rows[i].1, startDate).Failure?
    decreases |rows|
  {
    if rows != [] {
      var front := rows[..|rows| - 1];
      ChartUpdateDictFails(front, startDate, updateDate);
      assert forall i :: 0 <= i < |front| ==> front[i] == rows[i];
    }
  }

  /**
   * A successful planner result plans exactly the included rows, each
   * code with the plan of its last included row.
   */
  lemma {:induction false} ChartUpdateDictSpec(rows: seq<(string, MetaRow)>, startDate: Date, updateDate: Date)
    requires ChartUpdateDict(rows, startDate, updateDate).Success?
    ensures PlannedFrom(ChartUpdateDict(rows, startDate, updateDate).value, rows, startDate, updateDate)
    decreases |rows|
  {
    if rows != [] {
      var front := rows[..|rows| - 1];
      ChartUpdateDictSpec(front, startDate, updateDate);
      var d := ChartUpdateDict(front, startDate, updateDate).value;
      var (name, row) := rows[|rows| - 1];
      if Included(row, startDate, updateDate) {
        var k := CodeOf(name);
        var p := PlanOf(row, startDate);
        PutValid(d, k, p);
        PlansFromRowsSnoc(d, front, rows, startDate, updateDate, k, p);
        RowsPlannedSnoc(d, front, rows, startDate, updateDate, k, p);
        LastRowWinsSnoc(d, front, rows, startDate, updateDate, k, p);
      } else {
        assert ChartUpdateDict(rows, startDate, updateDate).value == d;
        PlannedSkip(d, front, rows, startDate, updateDate);
      }
    }
  }

  lemma PlansFromRowsSnoc(d: Dict, front: seq<(string, MetaRow)>, rows: seq<(string, MetaRow)>,
                          startDate: Date, updateDate: Date, k: string, p: Plan)
    requires rows != [] && front == rows[..|rows| - 1]
    requires PlansFromRows(d, front, startDate, updateDate)
    requires PlannedAt(rows, |rows| - 1, k, p, startDate, updateDate)
    ensures PlansFromRows(Put(d, k, p), rows, startDate, updateDate)
  {
    var e := Put(d, k, p);
    forall c | c in e.values
      ensures exists i :: PlannedAt(rows, i, c, e.values[c], startDate, updateDate)
    {
      if c == k {
        assert PlannedAt(rows, |rows| - 1, c, e.values[c], startDate, updateDate);
      } else {
        var i :| PlannedAt(front, i, c, d.values[c], startDate, updateDate);
        assert rows[i] == front[i];
        assert PlannedAt(rows, i, c, e.values[c], startDate, updateDate);
      }
    }
  }

  lemma RowsPlannedSnoc(d: Dict, front: seq<(string, MetaRow)>, rows: seq<(string, MetaRow)>,
                        startDate: Date, updateDate: Date, k: string, p: Plan)
    requires rows != [] && front == rows[..|rows| - 1]
    requires RowsPlanned(d, front, startDate, updateDate)
    requires k == CodeOf(rows[|rows| - 1].0)
    ensures RowsPlanned(Put(d, k, p), rows, startDate, updateDate)
  {
    forall i | 0 <= i < |rows| - 1
      ensures rows[i] == front[i]
    {
    }
  }

  lemma LastRowWinsSnoc(d: Dict, front: seq<(string, MetaRow)>, rows: seq<(string, MetaRow)>,
                        startDate: Date, updateDate: Date, k: string, p: Plan)
    requires rows != [] && front == rows[..|rows| - 1]
    requires LastRowWins(d, front, startDate, updateDate)
    requires PlannedAt(rows, |rows| - 1, k, p, startDate, updateDate)
    ensures LastRowWins(Put(d, k, p), rows, startDate, updateDate)
  {
    var n := |rows| - 1;
    forall i | LastIncluded(rows, i, startDate, updateDate)
      ensures CodeOf(rows[i].0) in Put(d, k, p).values
      ensures Put(d, k, p).values[CodeOf(rows[i].0)] == PlanOf(rows[i].1, startDate)
    {
      if i < n {
        assert rows[i] == front[i];
        assert CodeOf(rows[i].0) != k;
        forall j | i < j < n && Included(front[j].1, startDate, updateDate)
          ensures CodeOf(front[j].0) != CodeOf(front[i].0)
        {
          assert front[j] == rows[j];
        }
        assert LastIncluded(front, i, startDate, updateDate);
      }
    }
  }

  /** The inductive step of `ChartUpdateDictSpec` when the last row is not planned. */
  lemma PlannedSkip(d: Dict, front: seq<(string, MetaRow)>, rows: seq<(string, MetaRow)>,
                    startDate: Date, updateDate: Date)
    requires rows != [] && front == rows[..|rows| - 1]
    requires PlannedFrom(d, front, startDate, updateDate)
    requires !Included(rows[|rows| - 1].1, startDate, updateDate)
    ensures PlannedFrom(d, rows, startDate, updateDate)
  {
    var n := |rows| - 1;
    forall i | 0 <= i < n
      ensures rows[i] == front[i]
    {
    }
    forall c | c in d.values
      ensures exists i :: PlannedAt(rows, i, c, d.values[c], startDate, updateDate)
    {
      var i :| PlannedAt(front, i, c, d.values[c], startDate, updateDate);
      assert PlannedAt(rows, i, c, d.values[c], startDate, updateDate);
    }
    forall i | LastIncluded(rows, i, startDate, updateDate)
      ensures LastIncluded(front, i, startDate, updateDate)
    {
      forall j | i < j < n && Included(front[j].1, startDate, updateDate)
        ensures CodeOf(front[j].0) != CodeOf(front[i].0)
      {
        assert front[j] == rows[j];
      }
    }
  }

  // ---------------------------------------------------------------------
  // Task lists

  /** `[code, start, end]`: one code's request range. */
  datatype Task = Task(code: string, start: Date, end: Date)

  /**
   * `load_update_list`: a worker's saved checkpoint when it has one,
   * otherwise one task per planned code, in dictionary order, from the
   * code's start date to the update date.
   */
  function LoadUpdateList(checkpoint: Option<seq<Task>>, d: Dict, updateDate: Date): seq<Task>
    requires ValidDict(d)
  {
    match checkpoint
    case Some(saved) => saved
    case None => seq(|d.order|, j requires 0 <= j < |d.order| => Task(d.order[j], d.values[d.order[j]].latest, updateDate))
  }

  /**
   * A checkpoint replaces the plan whole.  A fresh list of a planned
   * dictionary holds each planned code once, in dictionary order, and
   * every task ends at the update date after it starts.
   */
  lemma LoadUpdateListSpec(checkpoint: Option<seq<Task>>, rows: seq<(string, MetaRow)>, startDate: Date, updateDate: Date)
    requires ChartUpdateDict(rows, startDate, updateDate).Success?
    ensures var d := ChartUpdateDict(rows, startDate, updateDate).value;
      ValidDict(d) &&
      var tasks := LoadUpdateList(checkpoint, d, updateDate);
      && (checkpoint.Some? ==> tasks == checkpoint.value)
      && (checkpoint.None? ==>
            && |tasks| == |d.values|
            && (forall j :: 0 <= j < |tasks| ==> tasks[j].code == d.order[j])
            && (forall j :: 0 <= j < |tasks| ==> tasks[j].start == d.values[tasks[j].code].latest < tasks[j].end == updateDate)
            && (forall i, j :: 0 <= i < j < |tasks| ==> tasks[i].code != tasks[j].code))
  {
    ChartUpdateDictSpec(rows, startDate, updateDate);
    var d := ChartUpdateDict(rows, startDate, updateDate).value;
    if checkpoint.None? {
      var tasks := LoadUpdateList(checkpoint, d, updateDate);
      DistinctCard(d.order, d.values.Keys);
      forall j | 0 <= j < |tasks|
        ensures tasks[j].start < updateDate
      {
        var k := d.order[j];
        assert k in d.values;
        var i :| PlannedAt(rows, i, k, d.values[k], startDate, updateDate);
      }
    }
  }

  /** A sequence without repeats has as many elements as the set of them. */
  lemma {:induction false} DistinctCard(s: seq<string>, keys: set<string>)
    requires forall i, j :: 0 <= i < j < |s| ==> s[i] != s[j]
    requires forall k :: k in keys ==> k in s
    requires forall i :: 0 <= i < |s| ==> s[i] in keys
    ensures |keys| == |s|
    decreases |s|
  {
    if s != [] {
      var t := s[1..];
      assert forall i, j :: 0 <= i < j < |t| ==> t[i] != t[j] by {
        assert forall i :: 0 <= i < |t| ==> t[i] == s[i + 1];
      }
      assert s[0] !in t by {
        assert forall i :: 0 <= i < |t| ==> t[i] == s[i + 1];
      }
      DistinctCard(t, keys - {s[0]});
    } else {
      assert keys == {};
    }
  }

  // ---------------------------------------------------------------------
  // Login

  /** The process lock the workers share while logging in. */
  class LoginLock {
    var held: bool

    constructor ()
      ensures !held
    {
      held := false;
    }

    method Acquire()
      requires !held
      modifies this
      ensures held
    {
      held := true;
    }

    method Release()
      requires held
      modifies this
      ensures !held
    {
      held := false;
    }
  }

  /**
   * `multiproc_kiwoom_login`: log in under the lock; the lock is released
   * whether or not the login connected, and a failed login ends the
   * worker with exit code 1.
   */
  method MultiprocLogin(lock: LoginLock, connected: bool) returns (exitCode: Option<int>)
    requires !lock.held
    modifies lock
    ensures !lock.held
    ensures exitCode == if connected then None else Some(1)
  {
    lock.Acquire();
    if connected {
      lock.Release();
      exitCode := None;
    } else {
      lock.Release();
      exitCode := Some(1);
    }
  }
}
