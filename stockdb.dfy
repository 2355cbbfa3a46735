/** Least and greatest elements of finite sets of dates, and their sorted listings. */
module DateSets {
  import opened Calendar

  lemma {:induction false} MinExists(s: set<Date>)
    requires s != {}
    ensures exists m :: m in s && forall x :: x in s ==> m <= x
    decreases |s|
  {
    assert (forall z :: z !in s) ==> s == {};
    var x :| x in s;
    var rest := s - {x};
    if rest == {} {
      forall y | y in s
        ensures x <= y
      {
        assert y !in rest;
      }
    } else {
      MinExists(rest);
      var m :| m in rest && forall y :: y in rest ==> m <= y;
      var least := if x < m then x else m;
      forall y | y in s
        ensures least <= y
      {
        if y != x {
          assert y in rest;
        }
      }
      assert least in s;
    }
  }

  lemma {:induction false} MaxExists(s: set<Date>)
    requires s != {}
    ensures exists m :: m in s && forall x :: x in s ==> x <= m
    decreases |s|
  {
    assert (forall z :: z !in s) ==> s == {};
    var x :| x in s;
    var rest := s - {x};
    if rest == {} {
      forall y | y in s
        ensures y <= x
      {
        assert y !in rest;
      }
    } else {
      MaxExists(rest);
      var m :| m in rest && forall y :: y in rest ==> y <= m;
      var greatest := if x > m then x else m;
      forall y | y in s
        ensures y <= greatest
      {
        if y != x {
          assert y in rest;
        }
      }
      assert greatest in s;
    }
  }

  /** The least date of a non-empty set. */
  function MinDate(s: set<Date>): (m: Date)
    requires s != {}
    ensures m in s && forall x :: x in s ==> m <= x
  {
    MinExists(s);
    var m :| m in s && forall x :: x in s ==> m <= x;
    m
  }

  /** The greatest date of a non-empty set. */
  function MaxDate(s: set<Date>): (m: Date)
    requires s != {}
    ensures m in s && forall x :: x in s ==> x <= m
  {
    MaxExists(s);
    var m :| m in s && forall x :: x in s ==> x <= m;
    m
  }

  /** The dates of `s` in ascending order (`ORDER BY date ASC`). */
  function Ascending(s: set<Date>): (r: seq<Date>)
    ensures |r| == |s|
    ensures forall d :: d in r <==> d in s
    ensures forall i, j :: 0 <= i < j < |r| ==> r[i] < r[j]
    decreases |s|
  {
    if s == {} then []
    else
      var m := MinDate(s);
      [m] + Ascending(s - {m})
  }

  /** The dates of `s` in descending order (`ORDER BY date DESC`). */
  function Descending(s: set<Date>): (r: seq<Date>)
    ensures |r| == |s|
    ensures forall d :: d in r <==> d in s
    ensures forall i, j :: 0 <= i < j < |r| ==> r[i] > r[j]
    decreases |s|
  {
    if s == {} then []
    else
      var m := MaxDate(s);
      [m] + Descending(s - {m})
  }
}

/**
 * The MariaDB store of kostock/stockdb.py with each SQL statement given
 * its plain map meaning.  A chart table `c_<code>` is a map from dates to
 * rows whose columns may be NULL, `meta_update` maps a table name to its
 * two optional dates, and `stock_info` maps a code to its description.
 */
module StockDb {
  import opened Wrappers
  import opened Calendar
  import opened DateSets

  /** One row of a chart table; every column but the date is nullable. */
  datatype Row = Row(
    open: Option<int>, close: Option<int>, high: Option<int>, low: Option<int>,
    volume: Option<int>, fore: Option<int>, inst: Option<int>, indi: Option<int>)

  const NullRow := Row(None, None, None, None, None, None, None, None)

  type Chart = map<Date, Row>

  /** The values `insert_ohlc_into_chart` writes. */
  datatype Ohlc = Ohlc(open: int, close: int, high: int, low: int, volume: int)

  /** The values `insert_investor_into_chart` writes. */
  datatype Investor = Investor(fore: int, inst: int, indi: int)

  /** One row of `meta_update`, keyed by table name. */
  datatype MetaRow = MetaRow(updateDate: Option<Date>, listingDate: Option<Date>)

  /** One row of `stock_info`, keyed by code. */
  datatype Info = Info(name: string, wicsLs: string, wicsMs: string, market: string, numStocks: int, cap: int)

  const SinfoTable := "stock_info"

  /** The meta row name of the chart table of `code`. */
  function ChartTable(code: string): (name: string)
    ensures |name| == |code| + 2 && name[..2] == "c_" && name[2..] == code
  {
    "c_" + code
  }

  /** `LIKE 'c_%'` under MySQL's case-insensitive collation: a `c` or `C` and at least one more character. */
  predicate IsChartTableName(name: string)
  {
    |name| >= 2 && (name[0] == 'c' || name[0] == 'C')
  }

  lemma ChartTableIsChartTableName(code: string)
    requires |code| >= 1
    ensures IsChartTableName(ChartTable(code))
    ensures !IsChartTableName(SinfoTable)
  {
    assert ChartTable(code)[0] == 'c';
  }

  /** The row an OHLC upsert leaves at its date. */
  function WithOhlc(old_: Option<Row>, o: Ohlc): Row
  {
    var base := if old_.Some? then old_.value else NullRow;
    base.(open := Some(o.open), close := Some(o.close), high := Some(o.high), low := Some(o.low), volume := Some(o.volume))
  }

  /** The row an investor upsert leaves at its date. */
  function WithInvestor(old_: Option<Row>, v: Investor): Row
  {
    var base := if old_.Some? then old_.value else NullRow;
    base.(fore := Some(v.fore), inst := Some(v.inst), indi := Some(v.indi))
  }

  function Lookup(chart: Chart, date: Date): Option<Row>
  {
    if date in chart then Some(chart[date]) else None
  }

  /** `INSERT ... ON DUPLICATE KEY UPDATE` of the price columns of one date. */
  function UpsertOhlc(chart: Chart, date: Date, o: Ohlc): (c: Chart)
    ensures c.Keys == chart.Keys + {date}
    ensures c[date].open == Some(o.open) && c[date].close == Some(o.close) && c[date].high == Some(o.high)
    ensures c[date].low == Some(o.low) && c[date].volume == Some(o.volume)
    ensures date in chart ==> c[date].fore == chart[date].fore && c[date].inst == chart[date].inst && c[date].indi == chart[date].indi
    ensures date !in chart ==> c[date].fore == None && c[date].inst == None && c[date].indi == None
    ensures forall d :: d in chart && d != date ==> c[d] == chart[d]
  {
    chart[date := WithOhlc(Lookup(chart, date), o)]
  }

  /** `INSERT ... ON DUPLICATE KEY UPDATE` of the investor columns of one date. */
  function UpsertInvestor(chart: Chart, date: Date, v: Investor): (c: Chart)
    ensures c.Keys == chart.Keys + {date}
    ensures c[date].fore == Some(v.fore) && c[date].inst == Some(v.inst) && c[date].indi == Some(v.indi)
    ensures date in chart ==>
      c[date].open == chart[date].open && c[date].close == chart[date].close
      && c[date].high == chart[date].high && c[date].low == chart[date].low && c[date].volume == chart[date].volume
    ensures date !in chart ==>
      c[date].open == None && c[date].close == None && c[date].high == None && c[date].low == None && c[date].volume == None
    ensures forall d :: d in chart && d != date ==> c[d] == chart[d]
  {
    chart[date := WithInvestor(Lookup(chart, date), v)]
  }

  lemma UpsertOhlcIdempotent(chart: Chart, date: Date, o: Ohlc)
    ensures UpsertOhlc(UpsertOhlc(chart, date, o), date, o) == UpsertOhlc(chart, date, o)
  {
    var once := UpsertOhlc(chart, date, o);
    assert once[date := WithOhlc(Lookup(once, date), o)][date] == once[date];
  }

  lemma UpsertInvestorIdempotent(chart: Chart, date: Date, v: Investor)
    ensures UpsertInvestor(UpsertInvestor(chart, date, v), date, v) == UpsertInvestor(chart, date, v)
  {
    var once := UpsertInvestor(chart, date, v);
    assert once[date := WithInvestor(Lookup(once, date), v)][date] == once[date];
  }

  /** The two upserts write disjoint column groups, so their order does not matter. */
  lemma UpsertsCommute(chart: Chart, d1: Date, o: Ohlc, d2: Date, v: Investor)
    ensures UpsertInvestor(UpsertOhlc(chart, d1, o), d2, v) == UpsertOhlc(UpsertInvestor(chart, d2, v), d1, o)
  {
    var a := UpsertInvestor(UpsertOhlc(chart, d1, o), d2, v);
    var b := UpsertOhlc(UpsertInvestor(chart, d2, v), d1, o);
    assert a.Keys == b.Keys;
    forall d | d in a.Keys
      ensures a[d] == b[d]
    {
    }
  }

  /** The meta row after `update_sinfo_date_in_meta` or `update_chart_date_in_meta` on an existing row. */
  function WithUpdateDate(old_: Option<MetaRow>, d: Date): MetaRow
  {
    if old_.Some? then old_.value.(updateDate := Some(d)) else MetaRow(Some(d), None)
  }

  /** The meta row after `insert_listing_date_into_meta`. */
  function WithListingDate(old_: Option<MetaRow>, d: Date): MetaRow
  {
    if old_.Some? then old_.value.(listingDate := Some(d)) else MetaRow(None, Some(d))
  }

  function MetaLookup(meta: map<string, MetaRow>, name: string): Option<MetaRow>
  {
    if name in meta then Some(meta[name]) else None
  }

  /** The tables of one database. */
  class StockDB {
    var charts: map<string, Chart>
    var meta: map<string, MetaRow>
    var sinfo: map<string, Info>

    /** `create_sinfo_schema`, `create_meta_schema` on an empty database. */
    constructor ()
      ensures charts == map[] && meta == map[] && sinfo == map[]
    {
      charts := map[];
      meta := map[];
      sinfo := map[];
    }

    /**
     * `add_row_into_sinfo`: a new code gets cap 0; an existing code has
     * its name, sectors, market and share count replaced, its cap kept.
     */
    method AddRowIntoSinfo(code: string, name: string, wicsLs: string, wicsMs: string, market: string, numStocks: int)
      modifies this
      ensures code in sinfo
      ensures sinfo[code].name == name && sinfo[code].wicsLs == wicsLs && sinfo[code].wicsMs == wicsMs
      ensures sinfo[code].market == market && sinfo[code].numStocks == numStocks
      ensures sinfo[code].cap == if code in old(sinfo) then old(sinfo)[code].cap else 0
      ensures sinfo.Keys == old(sinfo).Keys + {code}
      ensures forall c :: c in old(sinfo) && c != code ==> sinfo[c] == old(sinfo)[c]
      ensures charts == old(charts) && meta == old(meta)
    {
      var cap := if code in sinfo then sinfo[code].cap else 0;
      sinfo := sinfo[code := Info(name, wicsLs, wicsMs, market, numStocks, cap)];
    }

    /** `create_chart_schema`: a new, empty chart table. */
    method CreateChartSchema(code: string) returns (ok: bool)
      modifies this
      ensures ok <==> code !in old(charts)
      ensures charts == if ok then old(charts)[code := map[]] else old(charts)
      ensures meta == old(meta) && sinfo == old(sinfo)
    {
      ok := code !in charts;
      if ok {
        charts := charts[code := map[]];
      }
    }

    /** `insert_ohlc_into_chart`; `ok` is false where the table is missing and MySQL raises. */
    method InsertOhlcIntoChart(code: string, date: Date, o: Ohlc) returns (ok: bool)
      modifies this
      ensures ok <==> code in old(charts)
      ensures charts == if ok then old(charts)[code := UpsertOhlc(old(charts)[code], date, o)] else old(charts)
      ensures meta == old(meta) && sinfo == old(sinfo)
    {
      ok := code in charts;
      if ok {
        charts := charts[code := UpsertOhlc(charts[code], date, o)];
      }
    }

    /** `insert_investor_into_chart`; `ok` is false where the table is missing and MySQL raises. */
    method InsertInvestorIntoChart(code: string, date: Date, v: Investor) returns (ok: bool)
      modifies this
      ensures ok <==> code in old(charts)
      ensures charts == if ok then old(charts)[code := UpsertInvestor(old(charts)[code], date, v)] else old(charts)
      ensures meta == old(meta) && sinfo == old(sinfo)
    {
      ok := code in charts;
      if ok {
        charts := charts[code := UpsertInvestor(charts[code], date, v)];
      }
    }

    /** `update_sinfo_date_in_meta`: upsert of the `stock_info` row's update date. */
    method UpdateSinfoDateInMeta(d: Date)
      modifies this
      ensures meta == old(meta)[SinfoTable := WithUpdateDate(MetaLookup(old(meta), SinfoTable), d)]
      ensures meta[SinfoTable].updateDate == Some(d)
      ensures meta[SinfoTable].listingDate == if SinfoTable in old(meta) then old(meta)[SinfoTable].listingDate else None
      ensures charts == old(charts) && sinfo == old(sinfo)
    {
      meta := meta[SinfoTable := WithUpdateDate(MetaLookup(meta, SinfoTable), d)];
    }

    /** `insert_listing_date_into_meta`: upsert of the listing date of `c_<code>` only. */
    method InsertListingDateIntoMeta(code: string, d: Date)
      modifies this
      ensures meta == old(meta)[ChartTable(code) := WithListingDate(MetaLookup(old(meta), ChartTable(code)), d)]
      ensures meta[ChartTable(code)].listingDate == Some(d)
      ensures meta[ChartTable(code)].updateDate
        == if ChartTable(code) in old(meta) then old(meta)[ChartTable(code)].updateDate else None
      ensures charts == old(charts) && sinfo == old(sinfo)
    {
      var name := ChartTable(code);
      meta := meta[name := WithListingDate(MetaLookup(meta, name), d)];
    }

    /** `update_chart_date_in_meta`: a plain UPDATE, which never creates a row. */
    method UpdateChartDateInMeta(code: string, d: Date)
      modifies this
      ensures meta.Keys == old(meta).Keys
      ensures ChartTable(code) in old(meta) ==> meta == old(meta)[ChartTable(code) := old(meta)[ChartTable(code)].(updateDate := Some(d))]
      ensures ChartTable(code) !in old(meta) ==> meta == old(meta)
      ensures charts == old(charts) && sinfo == old(sinfo)
    {
      var name := ChartTable(code);
      if name in meta {
        meta := meta[name := meta[name].(updateDate := Some(d))];
      }
    }
  }

  // ---------------------------------------------------------------------
  // Queries

  function DatesUpTo(chart: Chart, date: Date): set<Date>
  {
    set d | d in chart && d <= date
  }

  /** The date of the latest row on or before `date`, if there is one. */
  function LatestUpTo(chart: Chart, date: Date): (r: Option<Date>)
    ensures r.None? <==> forall d :: d in chart ==> d > date
    ensures r.Some? ==> r.value in chart && r.value <= date
    ensures r.Some? ==> forall d :: d in chart && d <= date ==> d <= r.value
  {
    var s := DatesUpTo(chart, date);
    if s == {} then
      assert forall d :: d in chart ==> d > date by {
        forall d | d in chart
          ensures d > date
        {
          assert d <= date ==> d in s;
        }
      }
      None
    else
      var m := MaxDate(s);
      assert m in chart && m <= date;
      assert forall d :: d in chart && d <= date ==> d <= m by {
        forall d | d in chart && d <= date
          ensures d <= m
        {
          assert d in s;
        }
      }
      Some(m)
  }

  /** The dates of the rows on or before `date`, newest first. */
  function NewestUpTo(chart: Chart, date: Date): (r: seq<Date>)
    ensures |r| == |DatesUpTo(chart, date)|
    ensures forall i :: 0 <= i < |r| ==> r[i] in chart && r[i] <= date
    ensures forall d :: d in chart && d <= date ==> d in r
    ensures forall i, j :: 0 <= i < j < |r| ==> r[i] > r[j]
  {
    var r := Descending(DatesUpTo(chart, date));
    forall i | 0 <= i < |r|
      ensures r[i] in chart && r[i] <= date
    {
      assert r[i] in r;
    }
    forall d | d in chart && d <= date
      ensures d in r
    {
      assert d in DatesUpTo(chart, date);
    }
    r
  }

  /** The dates of the rows within `start..end`, oldest first. */
  function Between(chart: Chart, start: Date, end: Date): (r: seq<Date>)
    ensures forall i :: 0 <= i < |r| ==> r[i] in chart && start <= r[i] <= end
    ensures forall d :: d in chart && start <= d <= end ==> d in r
    ensures forall i, j :: 0 <= i < j < |r| ==> r[i] < r[j]
  {
    var s := set d | d in chart && start <= d <= end;
    var r := Ascending(s);
    forall i | 0 <= i < |r|
      ensures r[i] in chart && start <= r[i] <= end
    {
      assert r[i] in r;
    }
    forall d | d in chart && start <= d <= end
      ensures d in r
    {
      assert d in s;
    }
    r
  }

  /** The dates of the rows on or after `date`, oldest first. */
  function OldestFrom(chart: Chart, date: Date): (r: seq<Date>)
    ensures forall i :: 0 <= i < |r| ==> r[i] in chart && r[i] >= date
    ensures forall d :: d in chart && d >= date ==> d in r
    ensures forall i, j :: 0 <= i < j < |r| ==> r[i] < r[j]
  {
    var s := set d | d in chart && d >= date;
    var r := Ascending(s);
    forall i | 0 <= i < |r|
      ensures r[i] in chart && r[i] >= date
    {
      assert r[i] in r;
    }
    forall d | d in chart && d >= date
      ensures d in r
    {
      assert d in s;
    }
    r
  }

  /**
   * `get_recent_stock_price`: the close of the latest row dated on or
   * before `date`; `None` when there is no such row, and also when that
   * row's close is NULL.
   */
  function GetRecentStockPrice(chart: Chart, date: Date): (r: Option<int>)
    ensures (forall d :: d in chart ==> d > date) ==> r == None
    ensures forall d :: d in chart && d <= date && (forall e :: e in chart && d < e ==> e > date) ==> r == chart[d].close
  {
    var latest := LatestUpTo(chart, date);
    if latest.None? then None else chart[latest.value].close
  }

  /** A date and the columns `get_ohlc_prev_from_chart` selects. */
  datatype PriceRow = PriceRow(date: Date, open: Option<int>, close: Option<int>, high: Option<int>, low: Option<int>, volume: Option<int>)

  function PriceDates(rows: seq<PriceRow>): (r: seq<Date>)
    ensures |r| == |rows| && forall i :: 0 <= i < |r| ==> r[i] == rows[i].date
  {
    if rows == [] then [] else [rows[0].date] + PriceDates(rows[1..])
  }

  function PriceRowsOf(chart: Chart, dates: seq<Date>): (r: seq<PriceRow>)
    requires forall i :: 0 <= i < |dates| ==> dates[i] in chart
    ensures |r| == |dates| && PriceDates(r) == dates
    ensures forall i :: 0 <= i < |r| ==>
      r[i].open == chart[dates[i]].open && r[i].close == chart[dates[i]].close
      && r[i].high == chart[dates[i]].high && r[i].low == chart[dates[i]].low && r[i].volume == chart[dates[i]].volume
  {
    if dates == [] then []
    else
      var row := chart[dates[0]];
      var r := [PriceRow(dates[0], row.open, row.close, row.high, row.low, row.volume)] + PriceRowsOf(chart, dates[1..]);
      assert PriceDates(r) == dates by {
        assert PriceDates(r)[0] == dates[0];
        assert forall i :: 1 <= i < |r| ==> PriceDates(r)[i] == dates[i];
      }
      r
  }

  /**
   * `get_ohlc_prev_from_chart`: the `prevDays` most recent rows dated on
   * or before `date`, newest first.
   */
  function GetOhlcPrevFromChart(chart: Chart, date: Date, prevDays: nat): (r: seq<PriceRow>)
    ensures |r| == if prevDays < |DatesUpTo(chart, date)| then prevDays else |DatesUpTo(chart, date)|
    ensures forall i :: 0 <= i < |r| ==> r[i].date in chart && r[i].date <= date
  {
    var all := NewestUpTo(chart, date);
    PriceRowsOf(chart, all[..if prevDays < |all| then prevDays else |all|])
  }

  /** The rows come newest first. */
  lemma OhlcPrevNewestFirst(chart: Chart, date: Date, prevDays: nat)
    ensures var r := GetOhlcPrevFromChart(chart, date, prevDays);
      forall i, j :: 0 <= i < j < |r| ==> r[i].date > r[j].date
  {
    var all := NewestUpTo(chart, date);
    var k := if prevDays < |all| then prevDays else |all|;
    var r := GetOhlcPrevFromChart(chart, date, prevDays);
    assert PriceDates(r) == all[..k];
    forall i, j | 0 <= i < j < |r|
      ensures r[i].date > r[j].date
    {
      assert r[i].date == all[i] && r[j].date == all[j];
    }
  }

  /** In a newest-first list, whatever is newer than the k-th entry is among the first k. */
  lemma NewerInPrefix(all: seq<Date>, k: nat)
    requires 0 < k <= |all|
    requires forall i, j :: 0 <= i < j < |all| ==> all[i] > all[j]
    ensures forall d :: d in all && d > all[k - 1] ==> d in all[..k]
  {
    forall d | d in all && d > all[k - 1]
      ensures d in all[..k]
    {
      var j :| 0 <= j < |all| && all[j] == d;
      assert all[..k][j] == d;
    }
  }

  /** No row on or before `date` that is newer than the oldest row returned is left out. */
  lemma OhlcPrevAreMostRecent(chart: Chart, date: Date, prevDays: nat)
    ensures var r := GetOhlcPrevFromChart(chart, date, prevDays);
      forall d :: d in chart && d <= date && |r| > 0 && d > r[|r| - 1].date ==> d in PriceDates(r)
  {
    var all := NewestUpTo(chart, date);
    var k := if prevDays < |all| then prevDays else |all|;
    var r := GetOhlcPrevFromChart(chart, date, prevDays);
    assert PriceDates(r) == all[..k];
    if 0 < k {
      NewerInPrefix(all, k);
      assert r[k - 1].date == all[k - 1];
    }
  }

  /** A row as `get_range_from_chart` returns it: the date and every column. */
  datatype DatedRow = DatedRow(date: Date, row: Row)

  function RowDates(rows: seq<DatedRow>): (r: seq<Date>)
    ensures |r| == |rows| && forall i :: 0 <= i < |r| ==> r[i] == rows[i].date
  {
    if rows == [] then [] else [rows[0].date] + RowDates(rows[1..])
  }

  function DatedRowsOf(chart: Chart, dates: seq<Date>): (r: seq<DatedRow>)
    requires forall i :: 0 <= i < |dates| ==> dates[i] in chart
    ensures |r| == |dates| && RowDates(r) == dates
    ensures forall i :: 0 <= i < |r| ==> r[i].row == chart[dates[i]]
  {
    if dates == [] then []
    else
      var r := [DatedRow(dates[0], chart[dates[0]])] + DatedRowsOf(chart, dates[1..]);
      assert RowDates(r) == dates by {
        assert RowDates(r)[0] == dates[0];
        assert forall i :: 1 <= i < |r| ==> RowDates(r)[i] == dates[i];
      }
      r
  }

  /**
   * `get_range_from_chart`: exactly the rows with `start <= date <= end`
   * (`BETWEEN` is inclusive at both ends), in primary-key order, which is
   * ascending date.
   */
  function GetRangeFromChart(chart: Chart, start: Date, end: Date): (r: seq<DatedRow>)
    ensures forall d :: d in RowDates(r) <==> d in chart && start <= d <= end
    ensures forall i :: 0 <= i < |r| ==> r[i].date in chart && r[i].row == chart[r[i].date]
    ensures forall i, j :: 0 <= i < j < |r| ==> r[i].date < r[j].date
  {
    DatedRowsOf(chart, Between(chart, start, end))
  }

  /** An entry of the list `get_future_price_list` returns. */
  datatype Cell = Price(value: int) | Null | NaN

  function CloseCell(row: Row): Cell
  {
    if row.close.Some? then Price(row.close.value) else Null
  }

  /**
   * `get_future_price_list`: `n + 2` entries.  With no row before `date`
   * every entry is NaN; otherwise the close of the latest row before
   * `date`, then the closes from `date` on in ascending order, at most
   * `n + 1` of them, then NaN padding.
   */
  method GetFuturePriceList(chart: Chart, date: Date, n: nat) returns (r: seq<Cell>)
    ensures |r| == n + 2
    ensures LatestUpTo(chart, date - 1).None? ==> forall i :: 0 <= i < |r| ==> r[i] == NaN
    ensures LatestUpTo(chart, date - 1).Some? ==>
      && r[0] == CloseCell(chart[LatestUpTo(chart, date - 1).value])
      && var later := OldestFrom(chart, date);
         forall i :: 1 <= i < |r| ==>
           r[i] == if i - 1 < |later| then CloseCell(chart[later[i - 1]]) else NaN
  {
    var prev := LatestUpTo(chart, date - 1);
    if prev.None? {
      r := PadWithNaN([], n + 2);
    } else {
      var later := OldestFrom(chart, date);
      var closes := FirstCloses(chart, later, n + 1);
      var head := [CloseCell(chart[prev.value])] + closes;
      r := PadWithNaN(head, n + 2);
      forall i | 1 <= i < |r|
        ensures r[i] == if i - 1 < |later| then CloseCell(chart[later[i - 1]]) else NaN
      {
        if i < |head| {
          assert r[i] == r[..|head|][i] == head[i] == closes[i - 1];
        }
      }
      assert r[0] == r[..|head|][0] == head[0];
    }
  }

  /** The padding step: NaN entries appended up to length `len`. */
  method PadWithNaN(prefix: seq<Cell>, len: nat) returns (r: seq<Cell>)
    requires |prefix| <= len
    ensures |r| == len && r[..|prefix|] == prefix
    ensures forall i :: |prefix| <= i < len ==> r[i] == NaN
  {
    r := prefix;
    while |r| < len
      invariant |prefix| <= |r| <= len && r[..|prefix|] == prefix
      invariant forall i :: |prefix| <= i < |r| ==> r[i] == NaN
    {
      r := r + [NaN];
    }
  }

  /** The closes of the first `limit` dates of `dates` (`LIMIT` in the second query). */
  method FirstCloses(chart: Chart, dates: seq<Date>, limit: nat) returns (r: seq<Cell>)
    requires forall i :: 0 <= i < |dates| ==> dates[i] in chart
    ensures |r| == if |dates| < limit then |dates| else limit
    ensures forall i :: 0 <= i < |r| ==> r[i] == CloseCell(chart[dates[i]])
  {
    r := [];
    var k := 0;
    while k < |dates| && k < limit
      invariant 0 <= k <= |dates| && k <= limit
      invariant |r| == k
      invariant forall i :: 0 <= i < k ==> r[i] == CloseCell(chart[dates[i]])
    {
      r := r + [CloseCell(chart[dates[k]])];
      k := k + 1;
    }
  }
}
