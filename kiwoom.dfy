/**
 * The request and bookkeeping rules of the Kiwoom Open API client,
 * qpkg/Kiwoom.py.  The ActiveX control, its event loops and timers are
 * not modelled: what the server answers to the i-th request of a call is
 * a parameter, and the events it raises arrive as method arguments.
 */
module KiwoomClient {
  import opened Wrappers
  import opened Text
  import Arith

  const TrReqInterval1Sec := 1
  const TrReqInterval70Sec := 50
  const TrReqInterval600Sec := 110
  const LimitTrCount := 99

  // ---------------------------------------------------------------------
  // Request pacing

  /** The sleep after the request that brings the request count to `count`. */
  function PaceDelay(count: int): nat
  {
    (if count % 5 == 0 then TrReqInterval1Sec else 0)
    + (if count % 100 == 0 then TrReqInterval70Sec else 0)
    + (if count == 700 then TrReqInterval600Sec else 0)
  }

  /** The total sleep over the first `n` requests of one client. */
  function TotalDelay(n: nat): nat
  {
    if n == 0 then 0 else TotalDelay(n - 1) + PaceDelay(n)
  }

  /** One second per five requests, fifty more per hundred, and once 110 at the 700th. */
  lemma {:induction false} TotalDelayFormula(n: nat)
    ensures TotalDelay(n) == n / 5 + 50 * (n / 100) + (if n >= 700 then 110 else 0)
  {
    if n > 0 {
      TotalDelayFormula(n - 1);
      Arith.DivStep(n - 1, 5);
      Arith.DivStep(n - 1, 100);
      var p := n - 1;
      assert p + 1 == n;
      var late := if p >= 700 then 110 else 0;
      assert TotalDelay(n) == p / 5 + 50 * (p / 100) + late + PaceDelay(n);
      assert n / 5 == p / 5 + (if n % 5 == 0 then 1 else 0);
      assert n / 100 == p / 100 + (if n % 100 == 0 then 1 else 0);
    }
  }

  /** The first 100 requests wait 70 s and the first 700 wait 600 s, the server's rate limits. */
  lemma PaceMeetsServerLimits()
    ensures TotalDelay(100) == 70 && TotalDelay(700) == 600
  {
    TotalDelayFormula(100);
    TotalDelayFormula(700);
  }

  // ---------------------------------------------------------------------
  // Screen numbers

  /** The screen number a chart request moves to: `(n + 1) % 200 + 1`. */
  function NextScreen(scr: int): (r: int)
    ensures 1 <= r <= 200
  {
    (scr + 1) % 200 + 1
  }

  /** The screen number after `k` chart requests. */
  function ScreenAfter(scr: int, k: nat): int
  {
    if k == 0 then scr else NextScreen(ScreenAfter(scr, k - 1))
  }

  /** Adding whole rounds of 200 leaves the remainder. */
  lemma ModOfSum(r: int, q: int)
    requires 0 <= r < 200
    ensures (r + 200 * q) % 200 == r
  {
    assert r + 200 * q == 200 * q + r;
  }

  /** Each request advances the screen by two modulo 200, so only screens of one parity are used. */
  lemma {:induction false} ScreenAfterSteps(scr: int, k: nat)
    requires 1 <= scr <= 200
    ensures ScreenAfter(scr, k) == (scr - 1 + 2 * k) % 200 + 1
  {
    if k > 0 {
      ScreenAfterSteps(scr, k - 1);
      var a := scr - 1 + 2 * (k - 1);
      var q, r := a / 200, a % 200;
      assert a == 200 * q + r;
      if r + 2 < 200 {
        ModOfSum(r + 2, q);
        ModOfSum(r + 2, 0);
      } else {
        ModOfSum(r + 2 - 200, q + 1);
        ModOfSum(r + 2 - 200, 1);
      }
    }
  }

  /** The number of chart requests after which the screen number repeats. */
  const ScreenPeriod: nat := 100

  /** A hundred requests bring the screen number back to where it started, and no fewer do. */
  lemma ScreenCycle(scr: int)
    requires 1 <= scr <= 200
    ensures ScreenAfter(scr, ScreenPeriod) == scr
    ensures forall k :: 0 < k < ScreenPeriod ==> ScreenAfter(scr, k) != scr
  {
    ScreenAfterSteps(scr, ScreenPeriod);
    ModOfSum(scr - 1, 1);
    forall k | 0 < k < 100
      ensures ScreenAfter(scr, k) != scr
    {
      ScreenAfterSteps(scr, k);
      var a := scr - 1 + 2 * k;
      if a < 200 {
        ModOfSum(a, 0);
      } else {
        ModOfSum(a - 200, 1);
      }
    }
  }

  // ---------------------------------------------------------------------
  // Continuation paging

  /** The answer to one request: rows, and whether the server holds more (`continuous == '2'`). */
  datatype Page<R> = Page(remained: bool, rows: seq<R>)

  /** How the paging loop ends: `crashed` where `d[-1]` indexes an empty list. */
  datatype Paged<R> = Paged(status: int, rows: seq<R>, requests: nat, crashed: bool)

  /**
   * The paging loop after request `i`, with `count` requests made by the
   * client so far and `acc` the rows gathered up to and including page `i`.
   */
  function PagingFrom<R>(pages: nat -> Page<R>, dateOf: R -> string, start: string, i: nat, count: int, acc: seq<R>): Paged<R>
    requires count <= LimitTrCount
    decreases LimitTrCount - count
  {
    if !pages(i).remained then Paged(0, acc, i + 1, false)
    else if acc == [] then Paged(0, acc, i + 1, true)
    else if LexLe(dateOf(acc[|acc| - 1]), start) then Paged(0, acc, i + 1, false)
    else if count == LimitTrCount then Paged(-1, acc, i + 1, false)
    else PagingFrom(pages, dateOf, start, i + 1, count + 1, acc + pages(i + 1).rows)
  }

  /** A page that announces more, whose oldest row is after `start`, under the limit: one more request. */
  lemma PagingStep<R>(pages: nat -> Page<R>, dateOf: R -> string, start: string, i: nat, count: int, acc: seq<R>)
    requires count < LimitTrCount && pages(i).remained && acc != [] && !LexLe(dateOf(acc[|acc| - 1]), start)
    ensures PagingFrom(pages, dateOf, start, i, count, acc) == PagingFrom(pages, dateOf, start, i + 1, count + 1, acc + pages(i + 1).rows)
  {
  }

  /** The rows of the first `n` pages, in the order they arrived. */
  function RowsOf<R>(pages: nat -> Page<R>, n: nat): seq<R>
  {
    if n == 0 then [] else RowsOf(pages, n - 1) + pages(n - 1).rows
  }

  /**
   * What the paging loop promises: the client's count never passes the
   * limit, -1 means the limit was reached, the rows are every page's rows
   * in order, every page but the last announced more, and a 0 without a
   * crash means the server ran out or the oldest row reached `start`.
   */
  lemma {:induction false} PagingFacts<R>(pages: nat -> Page<R>, dateOf: R -> string, start: string, i: nat, count: int, acc: seq<R>)
    requires count <= LimitTrCount
    requires acc == RowsOf(pages, i + 1)
    requires forall j :: 0 <= j < i ==> pages(j).remained
    ensures var p := PagingFrom(pages, dateOf, start, i, count, acc);
      && p.requests >= i + 1
      && count + (p.requests - (i + 1)) <= LimitTrCount
      && (p.status == -1 <==>
            !p.crashed && count + (p.requests - (i + 1)) == LimitTrCount && pages(p.requests - 1).remained
            && p.rows != [] && !LexLe(dateOf(p.rows[|p.rows| - 1]), start))
      && (p.status == 0 || p.status == -1)
      && p.rows == RowsOf(pages, p.requests)
      && (forall j :: 0 <= j < p.requests - 1 ==> pages(j).remained)
      && (p.crashed ==> p.rows == [] && pages(p.requests - 1).remained)
      && (p.status == 0 && !p.crashed ==>
            !pages(p.requests - 1).remained || (p.rows != [] && LexLe(dateOf(p.rows[|p.rows| - 1]), start)))
    decreases LimitTrCount - count
  {
    if pages(i).remained && acc != [] && !LexLe(dateOf(acc[|acc| - 1]), start) && count < LimitTrCount {
      PagingFacts(pages, dateOf, start, i + 1, count + 1, acc + pages(i + 1).rows);
    }
  }

  /** The client's answer to a chart request: `(status, rows)` or an exception. */
  datatype TrReply<T> = Answer(status: int, rows: seq<T>) | Raised

  /** Every row converted, or `None` where one conversion raises. */
  function ConvertAll<R, T>(rows: seq<R>, conv: R -> Option<T>): (r: Option<seq<T>>)
    ensures r.Some? ==> |r.value| == |rows| && forall k :: 0 <= k < |rows| ==> conv(rows[k]) == Some(r.value[k])
    ensures r.None? ==> exists k :: 0 <= k < |rows| && conv(rows[k]).None?
  {
    if rows == [] then Some([])
    else
      match (conv(rows[0]), ConvertAll(rows[1..], conv))
      case (Some(x), Some(xs)) => Some([x] + xs)
      case (None, _) => None
      case (_, None) =>
        var k :| 0 <= k < |rows[1..]| && conv(rows[1..][k]).None?;
        assert conv(rows[k + 1]).None?;
        None
  }

  /**
   * Building the DataFrame: an empty result fails on `str_arr[:, [...]]`,
   * and a column that `int` cannot read raises ValueError.
   */
  function Finish<R, T>(p: Paged<R>, conv: R -> Option<T>): (r: TrReply<T>)
    ensures r.Answer? ==> !p.crashed && p.rows != [] && r.status == p.status && |r.rows| == |p.rows|
    ensures r.Answer? ==> forall k :: 0 <= k < |p.rows| ==> conv(p.rows[k]) == Some(r.rows[k])
    ensures r.Raised? ==> p.crashed || p.rows == [] || exists k :: 0 <= k < |p.rows| && conv(p.rows[k]).None?
  {
    if p.crashed || p.rows == [] then Raised
    else
      match ConvertAll(p.rows, conv)
      case None => Raised
      case Some(rows) => Answer(p.status, rows)
  }

  // ---------------------------------------------------------------------
  // Sign cleanup and integer conversion

  /** `str.replace(pat='^([+-])([+-])', repl='\\1')`: a leading pair of signs keeps only the first. */
  function SignClean(s: string): (r: string)
    ensures |s| >= 2 && IsSign(s[0]) && IsSign(s[1]) ==> |r| == |s| - 1 && r[0] == s[0] && r[1..] == s[2..]
    ensures !(|s| >= 2 && IsSign(s[0]) && IsSign(s[1])) ==> r == s
  {
    if |s| >= 2 && IsSign(s[0]) && IsSign(s[1]) then [s[0]] + s[2..] else s
  }

  /** The server's doubled signs (`--5`, `+-5`) read as the first sign, where `int` alone would raise. */
  lemma SignCleanReadsFirstSign(a: char, b: char, digits: string)
    requires IsSign(a) && IsSign(b) && |digits| >= 1 && AllDigits(digits)
    ensures ParseInt([a, b] + digits) == None
    ensures var n: int := ParseNat(digits);
      ParseInt(SignClean([a, b] + digits)) == Some(if a == '-' then -n else n)
  {
    var s := [a, b] + digits;
    assert s[1..][0] == b;
    assert !IsDigit(b);
    assert SignClean(s) == [a] + digits;
    assert ([a] + digits)[1..] == digits;
  }

  /** Plain numbers pass the cleanup unchanged. */
  lemma SignCleanKeepsNumbers(s: string)
    requires ParseInt(s).Some?
    ensures SignClean(s) == s
  {
    assert |s| >= 2 ==> s[1..][0] == s[1];
  }

  /** The columns of an opt10081 row the client keeps: 1 close, 2 volume, 3 volume price, 4 date, 5 open, 6 high, 7 low. */
  datatype OhlcRaw = OhlcRaw(close: string, volume: string, volumePrice: string, date: string, open: string, high: string, low: string)

  /** The columns of an opt10060 row the client keeps: 0 date, 4 individuals, 5 foreigners, 6 institutions. */
  datatype InvestorRaw = InvestorRaw(date: string, indi: string, fore: string, inst: string)

  datatype OhlcRow = OhlcRow(date: string, open: int, close: int, high: int, low: int, volumeQ: int, volumeP: int)

  datatype InvestorRow = InvestorRow(date: string, fore: int, inst: int, indi: int)

  function ReadInt(s: string): Option<int>
  {
    ParseInt(SignClean(s))
  }

  function ConvertOhlc(r: OhlcRaw): (row: Option<OhlcRow>)
    ensures row.Some? ==>
      row.value.date == r.date && Some(row.value.open) == ReadInt(r.open)
      && Some(row.value.close) == ReadInt(r.close) && Some(row.value.high) == ReadInt(r.high)
      && Some(row.value.low) == ReadInt(r.low) && Some(row.value.volumeQ) == ReadInt(r.volume)
      && Some(row.value.volumeP) == ReadInt(r.volumePrice)
    ensures row.None? <==>
      ReadInt(r.open).None? || ReadInt(r.close).None? || ReadInt(r.high).None?
      || ReadInt(r.low).None? || ReadInt(r.volume).None? || ReadInt(r.volumePrice).None?
  {
    match (ReadInt(r.open), ReadInt(r.close), ReadInt(r.high), ReadInt(r.low), ReadInt(r.volume), ReadInt(r.volumePrice))
    case (Some(o), Some(c), Some(h), Some(l), Some(q), Some(p)) => Some(OhlcRow(r.date, o, c, h, l, q, p))
    case _ => None
  }

  function ConvertInvestor(r: InvestorRaw): (row: Option<InvestorRow>)
    ensures row.Some? ==>
      row.value.date == r.date && Some(row.value.fore) == ReadInt(r.fore)
      && Some(row.value.inst) == ReadInt(r.inst) && Some(row.value.indi) == ReadInt(r.indi)
    ensures row.None? <==> ReadInt(r.fore).None? || ReadInt(r.inst).None? || ReadInt(r.indi).None?
  {
    match (ReadInt(r.fore), ReadInt(r.inst), ReadInt(r.indi))
    case (Some(f), Some(i), Some(d)) => Some(InvestorRow(r.date, f, i, d))
    case _ => None
  }

  function OhlcRawDate(r: OhlcRaw): string { r.date }

  function InvestorRawDate(r: InvestorRaw): string { r.date }

  // ---------------------------------------------------------------------
  // Argument mapping

  /** `form_opt`: MONEY is '1', QUANTITY is '2', anything else raises ArgumentError. */
  function FormOptCode(formOpt: string): (r: Result<string>)
    ensures r.Success? <==> formOpt in {"MONEY", "QUANTITY"}
    ensures r.Success? ==> r.value == (if formOpt == "MONEY" then "1" else "2")
  {
    if formOpt == "MONEY" then Success("1")
    else if formOpt == "QUANTITY" then Success("2")
    else Failure("form_opt")
  }

  /** `trade_opt`: TOTAL is '0', BUY '1', SELL '2', anything else raises ArgumentError. */
  function TradeOptCode(tradeOpt: string): (r: Result<string>)
    ensures r.Success? <==> tradeOpt in {"TOTAL", "BUY", "SELL"}
    ensures r.Success? ==> r.value == (if tradeOpt == "TOTAL" then "0" else if tradeOpt == "BUY" then "1" else "2")
  {
    if tradeOpt == "TOTAL" then Success("0")
    else if tradeOpt == "BUY" then Success("1")
    else if tradeOpt == "SELL" then Success("2")
    else Failure("trade_opt")
  }

  /** `stock_opt`: 1 is '1', 1000 is '1000', anything else raises ArgumentError. */
  function StockOptCode(stockOpt: int): (r: Result<string>)
    ensures r.Success? <==> stockOpt == 1 || stockOpt == 1000
    ensures r.Success? ==> AllDigits(r.value) && ParseNat(r.value) == stockOpt
  {
    if stockOpt == 1 || stockOpt == 1000 then
      ParseNatToString(stockOpt);
      Success(NatToString(stockOpt))
    else Failure("stock_opt")
  }

  /** `modi_price`: `True` is '1', `False` is '0', anything else raises ArgumentError. */
  function ModiPriceCode(modiPrice: Flag): (r: Result<string>)
    ensures r.Success? <==> !modiPrice.OtherValue?
    ensures r.Success? ==> r.value == (if modiPrice.IsTrue? then "1" else "0")
  {
    match modiPrice
    case IsTrue => Success("1")
    case IsFalse => Success("0")
    case OtherValue => Failure("modi_price")
  }

  /** The opt10060 arguments are mapped in order; the first bad one names the exception. */
  function Opt10060Args(formOpt: string, tradeOpt: string, stockOpt: int): (r: Result<(string, string, string)>)
    ensures r.Success? <==> FormOptCode(formOpt).Success? && TradeOptCode(tradeOpt).Success? && StockOptCode(stockOpt).Success?
    ensures FormOptCode(formOpt).Failure? ==> r == Failure("form_opt")
    ensures FormOptCode(formOpt).Success? && TradeOptCode(tradeOpt).Failure? ==> r == Failure("trade_opt")
  {
    match (FormOptCode(formOpt), TradeOptCode(tradeOpt), StockOptCode(stockOpt))
    case (Failure(e), _, _) => Failure(e)
    case (_, Failure(e), _) => Failure(e)
    case (_, _, Failure(e)) => Failure(e)
    case (Success(f), Success(t), Success(s)) => Success((f, t, s))
  }

  // ---------------------------------------------------------------------
  // Order tracking

  /** An order as `_cur_order_list` keeps it: code, original price, total quantity. */
  datatype OrderEntry = OrderEntry(code: string, price: int, qty: int)

  /**
   * The fields of a chejan event the client reads.  The quantities and
   * the price (FIDs 900, 902 and 901) are numbers: the corrected handler
   * converts the text `GetChejanData` returns with `int()`.
   */
  datatype ChejanEvent = ChejanEvent(gubun: int, orderNo: string, code: string, totalQty: int, remainedQty: int, orgPrice: int, concTime: string)

  /**
   * The order list after one event: an order event (gubun 0) with an
   * unseen number records the order; one with a seen number removes it
   * once nothing remains to fill; nothing else changes.
   */
  function ApplyChejan(orders: map<string, OrderEntry>, ev: ChejanEvent): (r: map<string, OrderEntry>)
    ensures forall o :: o != ev.orderNo ==> (o in r <==> o in orders) && (o in r ==> r[o] == orders[o])
    ensures ev.gubun != 0 ==> r == orders
    ensures ev.gubun == 0 && ev.orderNo !in orders ==> ev.orderNo in r && r[ev.orderNo] == OrderEntry(ev.code, ev.orgPrice, ev.totalQty)
    ensures ev.gubun == 0 && ev.orderNo in orders ==> (ev.orderNo in r <==> ev.remainedQty != 0)
    ensures ev.orderNo in orders && ev.orderNo in r ==> r[ev.orderNo] == orders[ev.orderNo]
  {
    if ev.gubun != 0 then orders
    else if ev.orderNo !in orders then orders[ev.orderNo := OrderEntry(ev.code, ev.orgPrice, ev.totalQty)]
    else if ev.remainedQty == 0 then orders - {ev.orderNo}
    else orders
  }

  /** An order accepted and then filled completely leaves the list as it was. */
  lemma AcceptThenFillRestores(orders: map<string, OrderEntry>, accept: ChejanEvent, fill: ChejanEvent)
    requires accept.gubun == 0 && fill.gubun == 0 && accept.orderNo == fill.orderNo && accept.orderNo !in orders
    requires fill.remainedQty == 0
    ensures ApplyChejan(ApplyChejan(orders, accept), fill) == orders
  {
    var after := ApplyChejan(ApplyChejan(orders, accept), fill);
    assert after.Keys == orders.Keys;
  }

  /** A Python value as far as `==` is concerned: an `int` never equals a `str`. */
  datatype PyValue = PyInt(n: int) | PyStr(text: string)

  predicate PyEq(a: PyValue, b: PyValue)
  {
    match (a, b)
    case (PyInt(x), PyInt(y)) => x == y
    case (PyStr(x), PyStr(y)) => x == y
    case _ => false
  }

  /**
   * `_receive_chejan_data` as written: `gubun == 0` compares the value the
   * control delivers, whatever its Python type, with the integer 0.
   */
  function ApplyChejanAsWritten(orders: map<string, OrderEntry>, gubun: PyValue, ev: ChejanEvent): (r: map<string, OrderEntry>)
    ensures PyEq(gubun, PyInt(0)) ==> r == ApplyChejan(orders, ev.(gubun := 0))
    ensures !PyEq(gubun, PyInt(0)) ==> r == orders
  {
    if PyEq(gubun, PyInt(0)) then ApplyChejan(orders, ev.(gubun := 0)) else orders
  }

  /**
   * The control delivers `gubun` as the text "0", so the handler as written
   * never records an order that the intended handler records.
   */
  lemma ChejanAsWrittenNeverRecords(orders: map<string, OrderEntry>, ev: ChejanEvent)
    requires ev.gubun == 0 && ev.orderNo !in orders
    ensures ev.orderNo !in ApplyChejanAsWritten(orders, PyStr("0"), ev)
    ensures ev.orderNo in ApplyChejan(orders, ev)
  {
  }

  /** `conc_time`: six characters become HH:MM:SS, eight become HH:MM:SS.MS, others are kept. */
  function FormatConcTime(t: string): (r: string)
    ensures |t| == 6 ==> |r| == 8 && r[2] == ':' && r[5] == ':'
    ensures |t| == 8 ==> |r| == 11 && r[2] == ':' && r[5] == ':' && r[8] == '.'
    ensures |t| != 6 && |t| != 8 ==> r == t
  {
    if |t| == 6 then t[0..2] + ":" + t[2..4] + ":" + t[4..6]
    else if |t| == 8 then t[0..2] + ":" + t[2..4] + ":" + t[4..6] + "." + t[6..8]
    else t
  }

  /** The text with every `:` and `.` removed. */
  function StripSeparators(s: string): (r: string)
    ensures forall c :: c in r <==> c in s && c != ':' && c != '.'
  {
    if s == [] then []
    else if s[0] == ':' || s[0] == '.' then StripSeparators(s[1..])
    else [s[0]] + StripSeparators(s[1..])
  }

  lemma {:induction false} StripAppend(a: string, b: string)
    ensures StripSeparators(a + b) == StripSeparators(a) + StripSeparators(b)
    decreases |a|
  {
    if a != [] {
      StripAppend(a[1..], b);
      assert (a + b)[0] == a[0];
      assert (a + b)[1..] == a[1..] + b;
    } else {
      assert a + b == b;
    }
  }

  lemma {:induction false} StripPlain(s: string)
    requires ':' !in s && '.' !in s
    ensures StripSeparators(s) == s
    decreases |s|
  {
    if s != [] {
      StripPlain(s[1..]);
      assert [s[0]] + s[1..] == s;
    }
  }

  /** A separator followed by a plain piece strips to the piece. */
  lemma StripGroup(a: string, sep: char, piece: string)
    requires sep == ':' || sep == '.'
    requires ':' !in piece && '.' !in piece
    ensures StripSeparators(a + [sep] + piece) == StripSeparators(a) + piece
  {
    StripAppend(a, [sep]);
    StripAppend(a + [sep], piece);
    StripPlain(piece);
    assert StripSeparators([sep]) == [];
  }

  /** Stripping HH:MM:SS gives HHMMSS. */
  lemma StripClock(t: string)
    requires |t| >= 6 && ':' !in t && '.' !in t
    ensures StripSeparators(t[0..2] + ":" + t[2..4] + ":" + t[4..6]) == t[..6]
  {
    var hh, mm, ss := t[0..2], t[2..4], t[4..6];
    StripPlain(hh);
    StripGroup(hh, ':', mm);
    StripGroup(hh + ":" + mm, ':', ss);
    assert t[..6] == hh + mm + ss;
  }

  /** Formatting only inserts separators: removing them gives the digits back. */
  lemma FormatConcTimeInverse(t: string)
    requires ':' !in t && '.' !in t
    ensures StripSeparators(FormatConcTime(t)) == t
  {
    if |t| == 6 {
      StripClock(t);
      assert t[..6] == t;
    } else if |t| == 8 {
      StripClock(t);
      var clock := t[0..2] + ":" + t[2..4] + ":" + t[4..6];
      StripGroup(clock, '.', t[6..8]);
      assert t[..6] + t[6..8] == t;
    } else {
      StripPlain(t);
    }
  }

  // ---------------------------------------------------------------------
  // List parsers

  /** `get_code_list_by_market`: split on ';' and drop the piece after the last separator. */
  function CodeListByMarket(s: string): (r: seq<string>)
    ensures |r| == |Split(s, ';')| - 1
    ensures forall k :: 0 <= k < |r| ==> r[k] == Split(s, ';')[k] && ';' !in r[k]
  {
    var pieces := Split(s, ';');
    pieces[..|pieces| - 1]
  }

  /** The server's `code;code;...;` text reads back as the codes. */
  lemma CodeListRoundTrip(codes: seq<string>)
    requires forall k :: 0 <= k < |codes| ==> ';' !in codes[k]
    ensures CodeListByMarket(Terminated(codes, ';')) == codes
  {
    SplitTerminated(codes, ';');
    assert (codes + [""])[..|codes|] == codes;
  }

  /** A user-defined condition: its index and name, both as text. */
  datatype Condition = Condition(idx: string, name: string)

  /** Each `idx^name` piece as a condition; `None` where a piece has no '^' and `idx_name[1]` raises. */
  function ParseConditions(pieces: seq<string>): (r: Option<seq<Condition>>)
    ensures r.Some? ==> |r.value| == |pieces|
    ensures r.Some? ==> forall k :: 0 <= k < |pieces| ==>
      |Split(pieces[k], '^')| >= 2 && r.value[k] == Condition(Split(pieces[k], '^')[0], Split(pieces[k], '^')[1])
    ensures r.None? ==> exists k :: 0 <= k < |pieces| && |Split(pieces[k], '^')| < 2
  {
    if pieces == [] then Some([])
    else
      var parts := Split(pieces[0], '^');
      if |parts| < 2 then None
      else
        match ParseConditions(pieces[1..])
        case None =>
          var k :| 0 <= k < |pieces[1..]| && |Split(pieces[1..][k], '^')| < 2;
          assert pieces[k + 1] == pieces[1..][k];
          None
        case Some(rest) => Some([Condition(parts[0], parts[1])] + rest)
  }

  /** `_get_condition_name_list`: split on ';', drop the last piece, split each piece on '^'. */
  function ConditionNameList(s: string): (r: Option<seq<Condition>>)
    ensures r.Some? ==> |r.value| == |Split(s, ';')| - 1
  {
    var pieces := Split(s, ';');
    ParseConditions(pieces[..|pieces| - 1])
  }

  function ConditionTexts(conds: seq<Condition>): (r: seq<string>)
    ensures |r| == |conds| && forall k :: 0 <= k < |r| ==> r[k] == conds[k].idx + "^" + conds[k].name
  {
    if conds == [] then [] else [conds[0].idx + "^" + conds[0].name] + ConditionTexts(conds[1..])
  }

  predicate PlainCondition(c: Condition)
  {
    ';' !in c.idx && '^' !in c.idx && ';' !in c.name && '^' !in c.name
  }

  lemma {:induction false} ParseConditionTexts(conds: seq<Condition>)
    requires forall k :: 0 <= k < |conds| ==> PlainCondition(conds[k])
    ensures ParseConditions(ConditionTexts(conds)) == Some(conds)
  {
    if conds != [] {
      var c := conds[0];
      ParseConditionTexts(conds[1..]);
      SplitAfterPiece(c.idx, c.name, '^');
      SplitNoSeparator(c.name, '^');
      assert c.idx + "^" + c.name == c.idx + ['^'] + c.name;
      assert ConditionTexts(conds)[1..] == ConditionTexts(conds[1..]);
      assert [c] + conds[1..] == conds;
    }
  }

  lemma TextsHaveNoSemicolon(conds: seq<Condition>)
    requires forall k :: 0 <= k < |conds| ==> PlainCondition(conds[k])
    ensures forall k :: 0 <= k < |conds| ==> ';' !in ConditionTexts(conds)[k]
  {
    var texts := ConditionTexts(conds);
    forall k | 0 <= k < |texts|
      ensures ';' !in texts[k]
    {
      assert texts[k] == conds[k].idx + "^" + conds[k].name;
    }
  }

  /** The server's `idx^name;idx^name;...;` text reads back as the conditions. */
  lemma ConditionNameListRoundTrip(conds: seq<Condition>)
    requires forall k :: 0 <= k < |conds| ==> PlainCondition(conds[k])
    ensures ConditionNameList(Terminated(ConditionTexts(conds), ';')) == Some(conds)
  {
    var texts := ConditionTexts(conds);
    TextsHaveNoSemicolon(conds);
    SplitTerminated(texts, ';');
    var pieces := Split(Terminated(texts, ';'), ';');
    assert pieces[..|pieces| - 1] == texts;
    ParseConditionTexts(conds);
  }

  // ---------------------------------------------------------------------
  // send_order lookups

  const OrderTypeLookup: map<string, int> :=
    map["BUY" := 1, "SELL" := 2, "CANCEL_BUY" := 3, "CANCEL_SELL" := 4, "MODI_BUY" := 5, "MODI_SELL" := 6]

  const DealTypeLookup: map<string, string> :=
    map["LIMIT" := "00", "MARKET" := "03", "CONDI_LIMIT" := "05", "ADVAN_LIMIT" := "06", "PRIOR_LIMIT" := "07",
        "LIMIT_IOC" := "10", "MARKET_IOC" := "13", "ADVAN_IOC" := "16",
        "LIMIT_FOK" := "20", "MARKET_FOK" := "23", "ADVAN_FOK" := "26",
        "BEFORE_MARKET" := "61", "TIMEOUT" := "62", "AFTER_MARKET" := "81"]

  /** An order type as `send_order` passes it on: a known name's number, or the argument itself. */
  datatype OrderType = TypeCode(n: int) | PassedThrough(arg: string)

  function OrderTypeOf(orderType: string): (r: OrderType)
    ensures orderType in OrderTypeLookup ==> r == TypeCode(OrderTypeLookup[orderType]) && 1 <= r.n <= 6
    ensures orderType !in OrderTypeLookup ==> r == PassedThrough(orderType)
  {
    if orderType in OrderTypeLookup then TypeCode(OrderTypeLookup[orderType]) else PassedThrough(orderType)
  }

  function DealTypeOf(dealType: string): (r: string)
    ensures dealType in DealTypeLookup ==> r == DealTypeLookup[dealType] && |r| == 2 && AllDigits(r)
    ensures dealType !in DealTypeLookup ==> r == dealType
  {
    if dealType in DealTypeLookup then DealTypeLookup[dealType] else dealType
  }

  /** Different order-type names never share a code. */
  lemma OrderTypesDistinct(a: string, b: string)
    requires a in OrderTypeLookup && b in OrderTypeLookup && a != b
    ensures OrderTypeLookup[a] != OrderTypeLookup[b]
  {
  }

  // ---------------------------------------------------------------------
  // The client object

  class Kiwoom {
    var trCount: int
    var scrNo: int
    var curOrderList: map<string, OrderEntry>

    /** The request count stays within the per-login budget. */
    predicate Valid()
      reads this
    {
      0 <= trCount <= LimitTrCount && scrNo >= 0
    }

    constructor ()
      ensures Valid()
      ensures trCount == 0 && scrNo == 0 && curOrderList == map[]
    {
      trCount := 0;
      scrNo := 0;
      curOrderList := map[];
    }

    /** `_comm_rq_data`: count the request whatever the server answers, and return the pacing sleep. */
    method CommRqData() returns (sleep: nat)
      modifies this
      ensures trCount == old(trCount) + 1 && sleep == PaceDelay(trCount)
      ensures scrNo == old(scrNo) && curOrderList == old(curOrderList)
    {
      trCount := trCount + 1;
      sleep := PaceDelay(trCount);
    }

    /** One page request: a fresh screen number, then the counted request. */
    method RequestPage()
      modifies this
      ensures trCount == old(trCount) + 1 && scrNo == NextScreen(old(scrNo))
      ensures curOrderList == old(curOrderList)
    {
      scrNo := NextScreen(scrNo);
      var _ := CommRqData();
    }

    /** `i + 1` pages requested since the count was `count0` and the screen `scr0`, within the budget. */
    ghost predicate Requested(count0: int, scr0: int, i: nat)
      reads this
    {
      trCount == count0 + 1 + i <= LimitTrCount && scrNo == ScreenAfter(scr0, i + 1)
    }

    /**
     * The paging loop of `req_opt10081` and `req_opt10060`: a first
     * request, then one more per announced continuation until the oldest
     * row reaches `start` or the request budget is used up.
     */
    method PageThrough<R>(pages: nat -> Page<R>, dateOf: R -> string, start: string) returns (outcome: Paged<R>)
      requires Valid() && trCount < LimitTrCount
      modifies this
      ensures Valid() && curOrderList == old(curOrderList)
      ensures outcome == PagingFrom(pages, dateOf, start, 0, old(trCount) + 1, pages(0).rows)
      ensures trCount == old(trCount) + outcome.requests
      ensures scrNo == ScreenAfter(old(scrNo), outcome.requests)
    {
      ghost var count0, scr0 := trCount, scrNo;
      RequestPage();
      var i := 0;
      var acc := pages(0).rows;
      ghost var spec := PagingFrom(pages, dateOf, start, 0, count0 + 1, acc);
      var going := true;
      outcome := Paged(0, acc, 1, false);
      while going
        invariant Requested(count0, scr0, i) && curOrderList == old(curOrderList)
        invariant going ==> PagingFrom(pages, dateOf, start, i, trCount, acc) == spec
        invariant !going ==> outcome == spec && outcome.requests == i + 1
        decreases going, LimitTrCount - trCount
      {
        if !pages(i).remained {
          outcome, going := Paged(0, acc, i + 1, false), false;
        } else if acc == [] {
          // `d[-1]` on an empty list raises IndexError
          outcome, going := Paged(0, acc, i + 1, true), false;
        } else if LexLe(dateOf(acc[|acc| - 1]), start) {
          outcome, going := Paged(0, acc, i + 1, false), false;
        } else if trCount == LimitTrCount {
          outcome, going := Paged(-1, acc, i + 1, false), false;
        } else {
          PagingStep(pages, dateOf, start, i, trCount, acc);
          RequestPage();
          i := i + 1;
          acc := acc + pages(i).rows;
        }
      }
    }

    /** A chart request: nothing is requested at the budget, otherwise the pages are fetched and converted. */
    method Fetch<R, T>(pages: nat -> Page<R>, dateOf: R -> string, conv: R -> Option<T>, start: string) returns (r: TrReply<T>)
      requires Valid()
      modifies this
      ensures Valid() && curOrderList == old(curOrderList)
      ensures old(trCount) == LimitTrCount ==> r == Answer(-1, []) && trCount == old(trCount) && scrNo == old(scrNo)
      ensures old(trCount) < LimitTrCount ==>
        var p := PagingFrom(pages, dateOf, start, 0, old(trCount) + 1, pages(0).rows);
        && trCount == old(trCount) + p.requests
        && scrNo == ScreenAfter(old(scrNo), p.requests)
        && r == Finish(p, conv)
    {
      if trCount == LimitTrCount {
        return Answer(-1, []);
      }
      var outcome := PageThrough(pages, dateOf, start);
      r := Finish(outcome, conv);
    }

    /** `req_opt10081`: map `modi_price`, then page through the daily candles. */
    method ReqOpt10081(modiPrice: Flag, start: string, pages: nat -> Page<OhlcRaw>) returns (r: TrReply<OhlcRow>)
      requires Valid()
      modifies this
      ensures Valid() && curOrderList == old(curOrderList)
      ensures ModiPriceCode(modiPrice).Failure? ==> r == Raised && trCount == old(trCount) && scrNo == old(scrNo)
      ensures ModiPriceCode(modiPrice).Success? && old(trCount) == LimitTrCount ==> r == Answer(-1, []) && trCount == old(trCount)
      ensures ModiPriceCode(modiPrice).Success? && old(trCount) < LimitTrCount ==>
        var p := PagingFrom(pages, OhlcRawDate, start, 0, old(trCount) + 1, pages(0).rows);
        trCount == old(trCount) + p.requests && r == Finish(p, ConvertOhlc)
    {
      if ModiPriceCode(modiPrice).Failure? {
        return Raised;
      }
      r := Fetch(pages, OhlcRawDate, ConvertOhlc, start);
    }

    /** `req_opt10060`: map the three options, then page through the investor rows. */
    method ReqOpt10060(formOpt: string, tradeOpt: string, stockOpt: int, start: string, pages: nat -> Page<InvestorRaw>)
      returns (r: TrReply<InvestorRow>)
      requires Valid()
      modifies this
      ensures Valid() && curOrderList == old(curOrderList)
      ensures Opt10060Args(formOpt, tradeOpt, stockOpt).Failure? ==> r == Raised && trCount == old(trCount) && scrNo == old(scrNo)
      ensures Opt10060Args(formOpt, tradeOpt, stockOpt).Success? && old(trCount) == LimitTrCount ==> r == Answer(-1, []) && trCount == old(trCount)
      ensures Opt10060Args(formOpt, tradeOpt, stockOpt).Success? && old(trCount) < LimitTrCount ==>
        var p := PagingFrom(pages, InvestorRawDate, start, 0, old(trCount) + 1, pages(0).rows);
        trCount == old(trCount) + p.requests && r == Finish(p, ConvertInvestor)
    {
      if Opt10060Args(formOpt, tradeOpt, stockOpt).Failure? {
        return Raised;
      }
      r := Fetch(pages, InvestorRawDate, ConvertInvestor, start);
    }

    /** `_receive_chejan_data`, with the event's fields read as numbers. */
    method ReceiveChejanData(ev: ChejanEvent) returns (concTime: string)
      modifies this
      ensures curOrderList == ApplyChejan(old(curOrderList), ev)
      ensures ev.gubun == 0 ==> concTime == FormatConcTime(ev.concTime)
      ensures trCount == old(trCount) && scrNo == old(scrNo)
    {
      concTime := ev.concTime;
      if ev.gubun == 0 {
        concTime := FormatConcTime(ev.concTime);
        if ev.orderNo !in curOrderList {
          curOrderList := curOrderList[ev.orderNo := OrderEntry(ev.code, ev.orgPrice, ev.totalQty)];
        } else if ev.remainedQty == 0 {
          curOrderList := curOrderList - {ev.orderNo};
        }
      }
    }

    /**
     * `send_order`: the screen number becomes `int(n) + 1 % 200 + 1`,
     * which is n + 2 with no wrap-around; names found in the lookup
     * tables are translated and others passed on as given.
     */
    method SendOrder(orderType: string, dealType: string) returns (ot: OrderType, dt: string)
      modifies this
      ensures scrNo == old(scrNo) + 2
      ensures ot == OrderTypeOf(orderType) && dt == DealTypeOf(dealType)
      ensures trCount == old(trCount) && curOrderList == old(curOrderList)
    {
      scrNo := scrNo + 1 % 200 + 1;
      ot := OrderTypeOf(orderType);
      dt := DealTypeOf(dealType);
    }
  }
}
