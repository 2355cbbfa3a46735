/**
 * `receive_chart_data` of kostock/update.py: the one process that writes
 * the chart tables.  It takes messages off the buffer until it takes the
 * sentinel `None`, upserts every row of a chunk into the code's chart
 * table, counts end markers per code, and moves the code's update date
 * in `meta_update` when the count becomes 2.  That is meant as "both
 * series of the code have finished", but the count does not tell the
 * series apart: a relaunched worker that re-sends a finished code also
 * makes it 2.
 */
module UpdateConsumer {
  import opened Wrappers
  import opened Calendar
  import opened StockDb
  import opened UpdateWorkers

  /** The upserts of a price chunk, row by row. */
  function UpsertBars(chart: Chart, bars: seq<OhlcBar>): Chart
  {
    if bars == [] then chart
    else
      var last := bars[|bars| - 1];
      UpsertOhlc(UpsertBars(chart, bars[..|bars| - 1]), last.date, last.ohlc)
  }

  /** The upserts of an investor chunk, row by row. */
  function UpsertFlows(chart: Chart, flows: seq<InvestorBar>): Chart
  {
    if flows == [] then chart
    else
      var last := flows[|flows| - 1];
      UpsertInvestor(UpsertFlows(chart, flows[..|flows| - 1]), last.date, last.inv)
  }

  /**
   * The chart tables after a chunk of `code`: `None` when the chunk has
   * rows and the table is missing, where the first INSERT raises and ends
   * the process; an empty chunk runs no statement.
   */
  function StoreChunk(charts: map<string, Chart>, code: string, c: Chunk): Option<map<string, Chart>>
  {
    if Size(c) == 0 then Some(charts)
    else if code !in charts then None
    else
      match c
      case OhlcChunk(bars) => Some(charts[code := UpsertBars(charts[code], bars)])
      case InvestorChunk(flows) => Some(charts[code := UpsertFlows(charts[code], flows)])
  }

  /** `meta_update` after `update_chart_date_in_meta(code, d)`. */
  function WithChartDate(meta: map<string, MetaRow>, code: string, d: Date): map<string, MetaRow>
  {
    var name := ChartTable(code);
    if name in meta then meta[name := meta[name].(updateDate := Some(d))] else meta
  }

  /** `proc_list[code]` of the `defaultdict(int)`. */
  function Count(counts: map<string, nat>, code: string): nat
  {
    if code in counts then counts[code] else 0
  }

  datatype Consumer = Consumer(charts: map<string, Chart>, meta: map<string, MetaRow>, counts: map<string, nat>)

  /** One message: its rows, then its end marker and, on the second, the watermark. */
  function Receive(s: Consumer, m: Message, updateDate: Date): Option<Consumer>
  {
    match StoreChunk(s.charts, m.code, m.chunk)
    case None => None
    case Some(charts) =>
      if !m.isEnd then Some(Consumer(charts, s.meta, s.counts))
      else
        var n := Count(s.counts, m.code) + 1;
        Some(Consumer(charts, if n == 2 then WithChartDate(s.meta, m.code, updateDate) else s.meta, s.counts[m.code := n]))
  }

  /** How the consumer stops: at the sentinel, by an error, or still waiting on an empty buffer. */
  datatype Stop = Sentinel | Died | Waiting

  datatype End = End(state: Consumer, taken: nat, how: Stop)

  /**
   * The consumer over the buffer's items in order.  `taken` counts the
   * messages it applied; the sentinel ends the loop, and a buffer that
   * runs out before it leaves the consumer waiting.
   */
  function Consume(s: Consumer, buffer: seq<Option<Message>>, updateDate: Date): End
    decreases |buffer|
  {
    if buffer == [] then End(s, 0, Waiting)
    else if buffer[0].None? then End(s, 0, Sentinel)
    else
      match Receive(s, buffer[0].value, updateDate)
      case None => End(s, 0, Died)
      case Some(s') =>
        var e := Consume(s', buffer[1..], updateDate);
        End(e.state, e.taken + 1, e.how)
  }

  /** The end markers of `code` among the buffer's messages. */
  function Markers(buffer: seq<Option<Message>>, code: string): nat
  {
    if buffer == [] then 0
    else
      var last := buffer[|buffer| - 1];
      Markers(buffer[..|buffer| - 1], code) + (if last.Some? && last.value.isEnd && last.value.code == code then 1 else 0)
  }

  /**
   * The watermark moves only on a code's second end marker: a message
   * changes `meta_update` only when it is an end marker whose code had
   * exactly one before, and then only that code's update date, to the
   * update date.
   */
  lemma WatermarkOnSecondMarker(s: Consumer, m: Message, updateDate: Date)
    requires Receive(s, m, updateDate).Some?
    ensures var t := Receive(s, m, updateDate).value;
      && Count(t.counts, m.code) == Count(s.counts, m.code) + (if m.isEnd then 1 else 0)
      && (forall c :: c != m.code ==> Count(t.counts, c) == Count(s.counts, c))
      && t.meta.Keys == s.meta.Keys
      && (t.meta != s.meta ==> m.isEnd && Count(s.counts, m.code) == 1)
      && (forall name :: name in s.meta && name != ChartTable(m.code) ==> t.meta[name] == s.meta[name])
      && (m.isEnd && Count(s.counts, m.code) == 1 && ChartTable(m.code) in s.meta ==>
            t.meta[ChartTable(m.code)] == s.meta[ChartTable(m.code)].(updateDate := Some(updateDate)))
  {
  }

  /** A meta row once `done`'s markers are counted: a chart table's row moves when its code has two. */
  function Moved(row: MetaRow, name: string, done: seq<Option<Message>>, updateDate: Date): MetaRow
  {
    if |name| >= 2 && name[..2] == "c_" && Markers(done, name[2..]) >= 2 then row.(updateDate := Some(updateDate)) else row
  }

  /** The consumer's state after applying `done` from empty counts and the meta table `meta0`. */
  ghost predicate CountedFrom(s: Consumer, meta0: map<string, MetaRow>, done: seq<Option<Message>>, updateDate: Date)
  {
    && (forall code :: Count(s.counts, code) == Markers(done, code))
    && s.meta.Keys == meta0.Keys
    && (forall name :: name in meta0 ==> s.meta[name] == Moved(meta0[name], name, done, updateDate))
  }

  lemma MarkersSnoc(done: seq<Option<Message>>, m: Message, code: string)
    ensures Markers(done + [Some(m)], code) == Markers(done, code) + (if m.isEnd && m.code == code then 1 else 0)
  {
    assert (done + [Some(m)])[..|done|] == done;
  }

  /** One applied message keeps `CountedFrom`. */
  lemma CountedStep(s: Consumer, m: Message, meta0: map<string, MetaRow>, done: seq<Option<Message>>, updateDate: Date)
    requires CountedFrom(s, meta0, done, updateDate)
    requires Receive(s, m, updateDate).Some?
    ensures CountedFrom(Receive(s, m, updateDate).value, meta0, done + [Some(m)], updateDate)
  {
    var t := Receive(s, m, updateDate).value;
    var done' := done + [Some(m)];
    forall code
      ensures Count(t.counts, code) == Markers(done', code)
    {
      MarkersSnoc(done, m, code);
    }
    forall name | name in meta0
      ensures t.meta[name] == Moved(meta0[name], name, done', updateDate)
    {
      if |name| >= 2 && name[..2] == "c_" {
        MarkersSnoc(done, m, name[2..]);
        if name[2..] != m.code {
          assert name != ChartTable(m.code);
        } else {
          assert name == ChartTable(m.code);
        }
      } else {
        assert name != ChartTable(m.code);
      }
    }
  }

  lemma {:induction false} ConsumeFrom(s: Consumer, buffer: seq<Option<Message>>, meta0: map<string, MetaRow>,
                                       done: seq<Option<Message>>, updateDate: Date)
    requires CountedFrom(s, meta0, done, updateDate)
    ensures var e := Consume(s, buffer, updateDate);
      e.taken <= |buffer| && CountedFrom(e.state, meta0, done + buffer[..e.taken], updateDate)
    decreases |buffer|
  {
    var e := Consume(s, buffer, updateDate);
    if buffer == [] || buffer[0].None? || Receive(s, buffer[0].value, updateDate).None? {
      assert done + buffer[..0] == done;
    } else {
      var m := buffer[0].value;
      CountedStep(s, m, meta0, done, updateDate);
      var s' := Receive(s, m, updateDate).value;
      ConsumeFrom(s', buffer[1..], meta0, done + [Some(m)], updateDate);
      var k := Consume(s', buffer[1..], updateDate).taken;
      assert (done + [Some(m)]) + buffer[1..][..k] == done + buffer[..k + 1];
    }
  }

  /**
   * After the consumer stops, each code's count is its number of end
   * markers in the messages it applied, and a chart table's update date
   * has moved exactly when that number reached 2; no other meta row
   * changes and no row is added.
   */
  lemma ConsumeCounts(s: Consumer, buffer: seq<Option<Message>>, updateDate: Date)
    requires s.counts == map[]
    ensures var e := Consume(s, buffer, updateDate);
      && e.taken <= |buffer|
      && (forall code :: Count(e.state.counts, code) == Markers(buffer[..e.taken], code))
      && e.state.meta.Keys == s.meta.Keys
      && (forall name :: name in s.meta ==> e.state.meta[name] == Moved(s.meta[name], name, buffer[..e.taken], updateDate))
  {
    ConsumeFrom(s, buffer, s.meta, [], updateDate);
    var e := Consume(s, buffer, updateDate);
    assert [] + buffer[..e.taken] == buffer[..e.taken];
  }

  /**
   * Only `None` ends the loop: the consumer applies every message up to
   * the first `None` and stops there, unless an INSERT raises first or
   * the buffer holds no `None`, where it waits.
   */
  lemma {:induction false} ConsumeStops(s: Consumer, buffer: seq<Option<Message>>, updateDate: Date)
    ensures var e := Consume(s, buffer, updateDate);
      && e.taken <= |buffer|
      && (forall j :: 0 <= j < e.taken ==> buffer[j].Some?)
      && (e.how == Sentinel <==> e.taken < |buffer| && buffer[e.taken].None?)
      && (e.how == Waiting <==> e.taken == |buffer|)
      && (e.how == Died ==> e.taken < |buffer| && buffer[e.taken].Some?)
    decreases |buffer|
  {
    if buffer != [] && buffer[0].Some? && Receive(s, buffer[0].value, updateDate).Some? {
      ConsumeStops(Receive(s, buffer[0].value, updateDate).value, buffer[1..], updateDate);
    }
  }

  /** The prefix of a buffer has no more markers than the buffer. */
  lemma {:induction false} MarkersPrefix(buffer: seq<Option<Message>>, k: nat, code: string)
    requires k <= |buffer|
    ensures Markers(buffer[..k], code) <= Markers(buffer, code)
    decreases |buffer|
  {
    if k < |buffer| {
      MarkersPrefix(buffer[..|buffer| - 1], k, code);
      assert buffer[..|buffer| - 1][..k] == buffer[..k];
    } else {
      assert buffer[..k] == buffer;
    }
  }

  /**
   * A buffer with at most one end marker per code never moves the
   * watermark: one run of one worker alone does not mark a code updated.
   */
  lemma OneSeriesNeverMoves(s: Consumer, buffer: seq<Option<Message>>, updateDate: Date)
    requires s.counts == map[]
    requires forall code :: Markers(buffer, code) <= 1
    ensures Consume(s, buffer, updateDate).state.meta == s.meta
  {
    ConsumeCounts(s, buffer, updateDate);
    var e := Consume(s, buffer, updateDate);
    forall name | name in s.meta
      ensures e.state.meta[name] == s.meta[name]
    {
      if |name| >= 2 {
        MarkersPrefix(buffer, e.taken, name[2..]);
      }
    }
  }

  // ---------------------------------------------------------------------
  // The process

  /** A second update of the same key replaces the first. */
  lemma Overwrite<K, V>(m: map<K, V>, k: K, a: V, b: V)
    ensures m[k := a][k := b] == m[k := b]
  {
  }

  /** One more bar is one more upsert on top of the ones before it. */
  lemma UpsertBarsStep(chart: Chart, bars: seq<OhlcBar>, j: nat)
    requires j < |bars|
    ensures UpsertBars(chart, bars[..j + 1]) == UpsertOhlc(UpsertBars(chart, bars[..j]), bars[j].date, bars[j].ohlc)
  {
    assert bars[..j + 1][..j] == bars[..j];
  }

  /** One more flow row is one more upsert on top of the ones before it. */
  lemma UpsertFlowsStep(chart: Chart, flows: seq<InvestorBar>, j: nat)
    requires j < |flows|
    ensures UpsertFlows(chart, flows[..j + 1]) == UpsertInvestor(UpsertFlows(chart, flows[..j]), flows[j].date, flows[j].inv)
  {
    assert flows[..j + 1][..j] == flows[..j];
  }

  /** The price upserts of one chunk, through the store's method, row by row. */
  method StoreBars(db: StockDB, code: string, bars: seq<OhlcBar>) returns (ok: bool)
    modifies db
    ensures ok <==> StoreChunk(old(db.charts), code, OhlcChunk(bars)).Some?
    ensures ok ==> db.charts == StoreChunk(old(db.charts), code, OhlcChunk(bars)).value
    ensures !ok ==> db.charts == old(db.charts)
    ensures db.meta == old(db.meta) && db.sinfo == old(db.sinfo)
  {
    ghost var charts0, meta0, sinfo0 := db.charts, db.meta, db.sinfo;
    ok := true;
    var j := 0;
    while j < |bars|
      invariant 0 <= j <= |bars|
      invariant j > 0 ==> code in charts0 && db.charts == charts0[code := UpsertBars(charts0[code], bars[..j])]
      invariant j == 0 ==> db.charts == charts0
      invariant db.meta == meta0 && db.sinfo == sinfo0
    {
      ok := db.InsertOhlcIntoChart(code, bars[j].date, bars[j].ohlc);
      if !ok {
        return;
      }
      UpsertBarsStep(charts0[code], bars, j);
      if j > 0 {
        Overwrite(charts0, code, UpsertBars(charts0[code], bars[..j]), UpsertBars(charts0[code], bars[..j + 1]));
      } else {
        assert bars[..0] == [];
      }
      j := j + 1;
    }
    assert bars[..j] == bars;
  }

  /** The investor upserts of one chunk, row by row. */
  method StoreFlows(db: StockDB, code: string, flows: seq<InvestorBar>) returns (ok: bool)
    modifies db
    ensures ok <==> StoreChunk(old(db.charts), code, InvestorChunk(flows)).Some?
    ensures ok ==> db.charts == StoreChunk(old(db.charts), code, InvestorChunk(flows)).value
    ensures !ok ==> db.charts == old(db.charts)
    ensures db.meta == old(db.meta) && db.sinfo == old(db.sinfo)
  {
    ghost var charts0, meta0, sinfo0 := db.charts, db.meta, db.sinfo;
    ok := true;
    var j := 0;
    while j < |flows|
      invariant 0 <= j <= |flows|
      invariant j > 0 ==> code in charts0 && db.charts == charts0[code := UpsertFlows(charts0[code], flows[..j])]
      invariant j == 0 ==> db.charts == charts0
      invariant db.meta == meta0 && db.sinfo == sinfo0
    {
      ok := db.InsertInvestorIntoChart(code, flows[j].date, flows[j].inv);
      if !ok {
        return;
      }
      UpsertFlowsStep(charts0[code], flows, j);
      if j > 0 {
        Overwrite(charts0, code, UpsertFlows(charts0[code], flows[..j]), UpsertFlows(charts0[code], flows[..j + 1]));
      } else {
        assert flows[..0] == [];
      }
      j := j + 1;
    }
    assert flows[..j] == flows;
  }

  /**
   * `receive_chart_data` on the buffer's items: the store ends as
   * `Consume` says, with `taken` messages applied.
   */
  method ReceiveChartData(db: StockDB, buffer: seq<Option<Message>>, updateDate: Date) returns (taken: nat, how: Stop)
    modifies db
    ensures var e := Consume(Consumer(old(db.charts), old(db.meta), map[]), buffer, updateDate);
      && db.charts == e.state.charts && db.meta == e.state.meta
      && taken == e.taken && how == e.how
    ensures db.sinfo == old(db.sinfo)
  {
    ghost var whole := Consume(Consumer(db.charts, db.meta, map[]), buffer, updateDate);
    var counts: map<string, nat> := map[];
    taken := 0;
    while taken < |buffer|
      invariant 0 <= taken <= |buffer|
      invariant var e := Consume(Consumer(db.charts, db.meta, counts), buffer[taken..], updateDate);
        whole == End(e.state, e.taken + taken, e.how)
      invariant db.sinfo == old(db.sinfo)
      decreases |buffer| - taken
    {
      var data := buffer[taken];
      if data.None? {
        return taken, Sentinel;
      }
      var m := data.value;
      ghost var before := Consumer(db.charts, db.meta, counts);
      var ok;
      if m.chunk.OhlcChunk? {
        ok := StoreBars(db, m.code, m.chunk.bars);
      } else {
        ok := StoreFlows(db, m.code, m.chunk.flows);
      }
      if !ok {
        return taken, Died;
      }
      if m.isEnd {
        var n := Count(counts, m.code) + 1;
        counts := counts[m.code := n];
        if n == 2 {
          db.UpdateChartDateInMeta(m.code, updateDate);
        }
      }
      assert Receive(before, m, updateDate) == Some(Consumer(db.charts, db.meta, counts));
      assert buffer[taken..][1..] == buffer[taken + 1..];
      taken := taken + 1;
    }
    how := Waiting;
  }
}
