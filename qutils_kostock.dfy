/**
 * Helpers of kostock/qutils.py: the latest trading day (holidays, fetched
 * from a public-data web service in the source, are a parameter), the
 * split of a YYYYMMDD integer into a date, and the URLs of the WICS
 * sector index and the company pages.  qpkg/qutils.py builds the same
 * three URLs with the same text, so they are modelled once, here.
 */
module KostockUtils {
  import opened Calendar
  import opened Civil
  import opened Wrappers
  import opened Text
  import QpkgUtils
  import Arith

  /**
   * `get_latest_trading_date`: December 31 of the input's year is added to
   * the holidays, then the same backward search as qpkg's version runs.
   */
  method GetLatestTradingDate(date: Date, holidays: seq<Date>) returns (r: Option<Date>)
    requires date >= 1
    ensures var closed := holidays + [YearEnd(date)];
      && (r.Some? ==> 1 <= r.value <= date && QpkgUtils.IsTradingDay(r.value, closed))
      && (r.Some? ==> forall d :: r.value < d <= date ==> !QpkgUtils.IsTradingDay(d, closed))
      && (r.None? <==> forall d :: 1 <= d <= date ==> !QpkgUtils.IsTradingDay(d, closed))
    ensures r.Some? ==> r.value != YearEnd(date)
    ensures QpkgUtils.IsTradingDay(date, holidays) && date != YearEnd(date) ==> r == Some(date)
  {
    var closed := holidays + [YearEnd(date)];
    r := QpkgUtils.GetLatestTradingDate(date, closed);
  }

  /**
   * `conv_int_to_date`: year, month and day of a YYYYMMDD integer; `None`
   * where `datetime.datetime` raises ValueError.  Python's `//` and `%`
   * floor, which for the positive divisors here is what Dafny's do too.
   */
  function ConvIntToDate(n: int): (r: Option<CivilDate>)
    ensures r.Some? ==> Valid(r.value)
    ensures r.Some? ==> r.value.year * 10000 + r.value.month * 100 + r.value.day == n
    ensures r.None? ==> !Valid(CivilDate(n / 10000, (n % 10000) / 100, n % 100))
  {
    var c := CivilDate(n / 10000, (n % 10000) / 100, n % 100);
    if Valid(c) then Some(c) else None
  }

  /** `date.strftime('%Y%m%d')`: four-digit year, two-digit month and day. */
  function Ymd(c: CivilDate): (s: string)
    requires Valid(c)
    ensures |s| == 8 && AllDigits(s)
  {
    PadNat(c.year, 4) + PadNat(c.month, 2) + PadNat(c.day, 2)
  }

  lemma SplitYmdNumber(y: nat, m: nat, d: nat, n: int)
    requires m < 100 && d < 100
    requires n == (y * 100 + m) * 100 + d
    ensures n / 10000 == y && (n % 10000) / 100 == m && n % 100 == d
  {
    var r := m * 100 + d;
    Arith.DivModUnique(n, 10000, y, r);
    Arith.DivModUnique(r, 100, m, d);
    Arith.DivModUnique(n, 100, 100 * y + m, d);
  }

  /** Reading a date back from its YYYYMMDD text gives the date. */
  lemma YmdRoundTrip(c: CivilDate)
    requires Valid(c)
    ensures ConvIntToDate(ParseNat(Ymd(c))) == Some(c)
  {
    assert Pow10(2) == 100;
    assert Pow10(4) == 10000;
    var y, m, d := PadNat(c.year, 4), PadNat(c.month, 2), PadNat(c.day, 2);
    ParseNatAppend(y, m);
    ParseNatAppend(y + m, d);
    var a := ParseNat(y + m);
    assert a == c.year * 100 + c.month;
    assert Ymd(c) == (y + m) + d;
    var n := ParseNat(Ymd(c));
    assert n == a * 100 + c.day;
    SplitYmdNumber(c.year, c.month, c.day, n);
  }

  const WicsPrefix := "http://www.wiseindex.com/Index/GetIndexComponets?ceil_yn=0&dt="
  const CompMainPrefix := "https://comp.fnguide.com/SVO2/ASP/SVD_Main.asp?pGB=1&gicode=A"
  const CompCorpPrefix := "https://comp.fnguide.com/SVO2/ASP/SVD_Corp.asp?pGB=1&gicode=A"
  const CompSuffix := "&cID=&MenuYn=Y&ReportGB=&NewMenuID=Y&stkGb=701"

  /** `get_wics_url`: the index-components request for one WICS sector on one day. */
  function GetWicsUrl(date: CivilDate, wicsCode: nat): (url: string)
    requires Valid(date)
    ensures |url| > |WicsPrefix| + 8
    ensures url[..|WicsPrefix|] == WicsPrefix
    ensures AllDigits(url[|WicsPrefix|..|WicsPrefix| + 8])
    ensures ConvIntToDate(ParseNat(url[|WicsPrefix|..|WicsPrefix| + 8])) == Some(date)
    ensures url[|WicsPrefix| + 8..] == "&sec_cd=G" + NatToString(wicsCode)
  {
    YmdRoundTrip(date);
    var head := WicsPrefix + Ymd(date);
    var tail := "&sec_cd=G" + NatToString(wicsCode);
    var url := head + tail;
    assert url[..|head|] == head;
    assert url[|head|..] == tail;
    assert url[|WicsPrefix|..|WicsPrefix| + 8] == Ymd(date);
    url
  }

  /** `get_comp_main_url`: the company summary page, the code right after `gicode=A`. */
  function GetCompMainUrl(code: string): (url: string)
    ensures |url| == |CompMainPrefix| + |code| + |CompSuffix|
    ensures url[..|CompMainPrefix|] == CompMainPrefix
    ensures url[|CompMainPrefix|..|CompMainPrefix| + |code|] == code
    ensures url[|CompMainPrefix| + |code|..] == CompSuffix
  {
    var url := CompMainPrefix + code + CompSuffix;
    assert url[|CompMainPrefix|..|CompMainPrefix| + |code|] == code;
    url
  }

  /** `get_comp_corp_url`: the company overview page, the code right after `gicode=A`. */
  function GetCompCorpUrl(code: string): (url: string)
    ensures |url| == |CompCorpPrefix| + |code| + |CompSuffix|
    ensures url[..|CompCorpPrefix|] == CompCorpPrefix
    ensures url[|CompCorpPrefix|..|CompCorpPrefix| + |code|] == code
    ensures url[|CompCorpPrefix| + |code|..] == CompSuffix
  {
    var url := CompCorpPrefix + code + CompSuffix;
    assert url[|CompCorpPrefix|..|CompCorpPrefix| + |code|] == code;
    url
  }

  /**
   * The code can be read back from either page's URL: two codes give the
   * same URL only when they are the same code, and the two pages never
   * share a URL.
   */
  lemma CompUrlsDetermineCode(a: string, b: string)
    ensures GetCompMainUrl(a) == GetCompMainUrl(b) ==> a == b
    ensures GetCompCorpUrl(a) == GetCompCorpUrl(b) ==> a == b
    ensures GetCompMainUrl(a) != GetCompCorpUrl(b)
  {
    var m, c := GetCompMainUrl(a), GetCompCorpUrl(b);
    assert m[38] == m[..|CompMainPrefix|][38] == CompMainPrefix[38] == 'M';
    assert c[38] == c[..|CompCorpPrefix|][38] == CompCorpPrefix[38] == 'C';
  }
}
