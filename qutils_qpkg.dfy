/**
 * Trading-calendar helper of qpkg/qutils.py.  The market's closed days
 * (read from an Excel sheet in the source) are a parameter.
 */
module QpkgUtils {
  import opened Calendar
  import opened Wrappers

  /** A day the market trades: Monday to Friday and not a closed day. */
  predicate IsTradingDay(d: Date, closed: seq<Date>)
  {
    !IsWeekend(d) && d !in closed
  }

  /**
   * `get_latest_trading_date`: step back one day at a time from `date`
   * while the day is a weekend or a closed day.  Stepping back from
   * 0001-01-01 raises OverflowError in Python, which is `None` here.
   */
  method GetLatestTradingDate(date: Date, closed: seq<Date>) returns (r: Option<Date>)
    requires date >= 1
    ensures r.Some? ==> 1 <= r.value <= date && IsTradingDay(r.value, closed)
    ensures r.Some? ==> forall d :: r.value < d <= date ==> !IsTradingDay(d, closed)
    ensures r.None? <==> forall d :: 1 <= d <= date ==> !IsTradingDay(d, closed)
    ensures IsTradingDay(date, closed) ==> r == Some(date)
  {
    var d := date;
    while !IsTradingDay(d, closed)
      invariant 1 <= d <= date
      invariant forall e :: d < e <= date ==> !IsTradingDay(e, closed)
      decreases d
    {
      if d == 1 {
        return None;
      }
      d := d - 1;
    }
    r := Some(d);
  }
}
