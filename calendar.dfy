/**
 * Calendar dates as the report handles them: Python `date` values chosen in
 * the sidebar, MySQL DATETIME columns, the '%Y-%m-%d' text the dates are
 * sent as, the '%Y年%m月' month label of every monthly rollup, and the
 * default reporting period.
 */
module Calendar {
  import opened Wrappers
  import opened Text

  datatype Date = Date(year: int, month: int, day: int)

  /** A DATETIME: a date and the seconds elapsed since its midnight. */
  datatype DateTime = DateTime(date: Date, secs: int)

  predicate IsLeap(y: int)
  {
    y % 4 == 0 && (y % 100 != 0 || y % 400 == 0)
  }

  /** calendar.monthrange(y, m)[1]. */
  function DaysInMonth(y: int, m: int): (n: int)
    ensures 28 <= n <= 31
  {
    if m == 2 then (if IsLeap(y) then 29 else 28)
    else if m == 4 || m == 6 || m == 9 || m == 11 then 30
    else 31
  }

  /** The dates Python's `date` accepts. */
  predicate ValidDate(d: Date)
  {
    1 <= d.year <= 9999 && 1 <= d.month <= 12 && 1 <= d.day <= DaysInMonth(d.year, d.month)
  }

  predicate ValidDateTime(t: DateTime)
  {
    ValidDate(t.date) && 0 <= t.secs < 86400
  }

  predicate DateLt(a: Date, b: Date)
  {
    a.year < b.year
    || (a.year == b.year && a.month < b.month)
    || (a.year == b.year && a.month == b.month && a.day < b.day)
  }

  predicate DateLe(a: Date, b: Date)
  {
    a == b || DateLt(a, b)
  }

  /**
   * `start_date >= %(start)s AND start_date < %(end)s`: MySQL reads each
   * 'YYYY-MM-DD' parameter as that day's midnight, so a DATETIME is in the
   * half-open period exactly when its day is.
   */
  predicate InPeriod(t: DateTime, start: Date, end: Date)
  {
    DateLe(start, t.date) && DateLt(t.date, end)
  }

  // ---------------------------------------------------------------------
  // TIMESTAMPDIFF(SECOND, a, b).

  function DaysBeforeMonth(y: int, m: int): int
    decreases m
  {
    if m <= 1 then 0 else DaysBeforeMonth(y, m - 1) + DaysInMonth(y, m - 1)
  }

  /** Days from 0001-01-01 to `d` in the proleptic Gregorian calendar. */
  function DayNumber(d: Date): int
  {
    var y := d.year - 1;
    365 * y + y / 4 - y / 100 + y / 400 + DaysBeforeMonth(d.year, d.month) + d.day - 1
  }

  function EpochSeconds(t: DateTime): int
  {
    DayNumber(t.date) * 86400 + t.secs
  }

  /** TIMESTAMPDIFF(SECOND, a, b): NULL when either end is NULL. */
  function SecondsBetween(a: Option<DateTime>, b: Option<DateTime>): (r: Option<int>)
    ensures r.Some? <==> a.Some? && b.Some?
    ensures r.Some? ==> r.value == EpochSeconds(b.value) - EpochSeconds(a.value)
  {
    if a.Some? && b.Some? then Some(EpochSeconds(b.value) - EpochSeconds(a.value)) else None
  }

  /** Later in the same day means more seconds. */
  lemma SameDaySeconds(a: DateTime, b: DateTime)
    requires a.date == b.date
    ensures SecondsBetween(Some(a), Some(b)) == Some(b.secs - a.secs)
  {
  }

  // ---------------------------------------------------------------------
  // value.strftime('%Y-%m-%d'): the text `execute_query` sends for a date.

  function IsoText(d: Date): (s: string)
    requires ValidDate(d)
    ensures |s| == 10 && s[4] == '-' && s[7] == '-'
  {
    Pad(4, d.year) + "-" + Pad(2, d.month) + "-" + Pad(2, d.day)
  }

  /** MySQL's reading of a 'YYYY-MM-DD' parameter back into a date. */
  function ParseIso(s: string): (r: Option<Date>)
    ensures r.Some? ==> |s| == 10
  {
    if |s| == 10 && s[4] == '-' && s[7] == '-'
       && AllDigits(s[..4]) && AllDigits(s[5..7]) && AllDigits(s[8..])
    then Some(Date(DigitsValue(s[..4]), DigitsValue(s[5..7]), DigitsValue(s[8..])))
    else None
  }

  /** The database receives exactly the date chosen: formatting loses nothing. */
  lemma IsoTextRoundTrip(d: Date)
    requires ValidDate(d)
    ensures ParseIso(IsoText(d)) == Some(d)
  {
    var y, m, dd := Pad(4, d.year), Pad(2, d.month), Pad(2, d.day);
    var s := IsoText(d);
    assert s == y + "-" + m + "-" + dd;
    assert s[..4] == y;
    assert s[5..7] == m;
    assert s[8..] == dd;
  }

  // ---------------------------------------------------------------------
  // DATE_FORMAT(start_date, '%Y年%m月'): the month of every monthly rollup.

  /** Month number counted from year 0: the '%Y-%m' of GROUP BY and ORDER BY. */
  function MonthIndex(d: Date): int
  {
    d.year * 12 + (d.month - 1)
  }

  function MonthLabel(d: Date): (s: string)
    requires ValidDate(d)
    ensures |s| == 8
  {
    Pad(4, d.year) + "年" + Pad(2, d.month) + "月"
  }

  /** Two month labels are the same text exactly when the months are the same. */
  lemma MonthLabelInjective(a: Date, b: Date)
    requires ValidDate(a) && ValidDate(b)
    ensures MonthLabel(a) == MonthLabel(b) <==> MonthIndex(a) == MonthIndex(b)
  {
    if MonthLabel(a) == MonthLabel(b) {
      LabelSplit(a, b);
    }
    if MonthIndex(a) == MonthIndex(b) {
      SameMonthIndex(a, b);
    }
  }

  lemma LabelSplit(a: Date, b: Date)
    requires ValidDate(a) && ValidDate(b) && MonthLabel(a) == MonthLabel(b)
    ensures a.year == b.year && a.month == b.month
  {
    var ya, yb := Pad(4, a.year), Pad(4, b.year);
    var ma, mb := Pad(2, a.month), Pad(2, b.month);
    assert MonthLabel(a) == ya + (("年" + ma) + "月") && MonthLabel(b) == yb + (("年" + mb) + "月");
    SameLengthConcat(ya, ("年" + ma) + "月", yb, ("年" + mb) + "月");
    SameLengthConcat("年" + ma, "月", "年" + mb, "月");
    SameLengthConcat("年", ma, "年", mb);
    PadInjective(4, a.year, b.year);
    PadInjective(2, a.month, b.month);
  }

  lemma SameMonthIndex(a: Date, b: Date)
    requires 1 <= a.month <= 12 && 1 <= b.month <= 12 && MonthIndex(a) == MonthIndex(b)
    ensures a.year == b.year && a.month == b.month
  {
  }

  /**
   * Sorting month labels as text (Python's sorted() on the trend chart's
   * x axis) puts them in calendar order.
   */
  lemma MonthLabelOrder(a: Date, b: Date)
    requires ValidDate(a) && ValidDate(b)
    ensures StrLt(MonthLabel(a), MonthLabel(b)) <==> MonthIndex(a) < MonthIndex(b)
  {
    var ya, yb := Pad(4, a.year), Pad(4, b.year);
    var ma, mb := Pad(2, a.month), Pad(2, b.month);
    var ra, rb := "年" + ma + "月", "年" + mb + "月";
    assert MonthLabel(a) == ya + ra && MonthLabel(b) == yb + rb;
    StrLtConcat(ya, ra, yb, rb);
    PadOrder(4, a.year, b.year);
    PadInjective(4, a.year, b.year);
    StrLtConcat("年", ma + "月", "年", mb + "月");
    assert ra == "年" + (ma + "月") && rb == "年" + (mb + "月");
    StrLtConcat(ma, "月", mb, "月");
    StrLtIrreflexive("月");
    PadOrder(2, a.month, b.month);
    PadInjective(2, a.month, b.month);
  }

  // ---------------------------------------------------------------------
  // The sidebar's default period.

  /**
   * `today.replace(day=1) - timedelta(days=1)`: the last day of the
   * previous month; OverflowError (None) in January of year 1.
   */
  function LastDayOfPreviousMonth(today: Date): (r: Option<Date>)
    requires ValidDate(today)
    ensures r.Some? <==> !(today.year == 1 && today.month == 1)
    ensures r.Some? ==> ValidDate(r.value) && DateLt(r.value, today)
    ensures r.Some? ==> r.value.day == DaysInMonth(r.value.year, r.value.month)
    ensures r.Some? ==> MonthIndex(r.value) == MonthIndex(today) - 1
  {
    if today.month == 1 then
      if today.year == 1 then None else Some(Date(today.year - 1, 12, 31))
    else Some(Date(today.year, today.month - 1, DaysInMonth(today.year, today.month - 1)))
  }

  /**
   * The default (start, end) of the sidebar: the first and the last day of
   * the previous month.
   */
  function DefaultPeriod(today: Date): (r: Option<(Date, Date)>)
    requires ValidDate(today)
    ensures r.Some? <==> !(today.year == 1 && today.month == 1)
    ensures r.Some? ==> var (s, e) := r.value;
      && ValidDate(s) && ValidDate(e) && s.day == 1
      && s.year == e.year && s.month == e.month
      && e.day == DaysInMonth(e.year, e.month)
      && MonthIndex(e) == MonthIndex(today) - 1
  {
    match LastDayOfPreviousMonth(today)
    case None => None
    case Some(last) => Some((Date(last.year, last.month, 1), last))
  }

  /**
   * With the default period, tickets opened on the last day of the
   * previous month fall outside it (the end bound is exclusive), while
   * every earlier day of that month is inside.
   */
  lemma DefaultPeriodDropsLastDay(today: Date, t: DateTime)
    requires ValidDate(today) && ValidDateTime(t)
    requires DefaultPeriod(today).Some?
    ensures var (s, e) := DefaultPeriod(today).value;
      && (t.date == e ==> !InPeriod(t, s, e))
      && (MonthIndex(t.date) == MonthIndex(e) && t.date.day < e.day ==> InPeriod(t, s, e))
  {
    var (s, e) := DefaultPeriod(today).value;
    if MonthIndex(t.date) == MonthIndex(e) {
      assert t.date.year == e.year && t.date.month == e.month by {
        assert 1 <= t.date.month <= 12 && 1 <= e.month <= 12;
      }
    }
  }
}
