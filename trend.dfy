/**
 * The team trend chart of the PDF report: the team rollup is read back as
 * a frame, its 工单解决率 texts are turned into numbers, the service
 * request rows are kept, and a grid of one series per team over the
 * sorted distinct months is built with two nested loops.
 */
module Trend {
  import opened Wrappers
  import opened Seqs
  import opened Text
  import opened Calendar
  import opened Tickets
  import opened Rollups

  /** A row of the team frame as the chart reads it: month, team, type label and 工单解决率 (None for NULL). */
  datatype FrameRow = FrameRow(month: string, team: string, ttype: string, rate: Option<string>)

  /** A row once its rate has been read, in hundredths of a percent. */
  datatype Point = Point(month: string, team: string, ttype: string, rate: nat)

  /** The frame row of a rollup row; the rate is the text the query computes from the row's counts. */
  function FrameRowOf(r: RollupRow): FrameRow
  {
    FrameRow(r.month, r.name, TypeLabel(r.ttype), if r.unresolved <= r.count then r.ResolutionRate() else None)
  }

  /** float(str(x).rstrip('%')): a NULL cell prints as 'None', which is no number. */
  function ReadRate(cell: Option<string>): Option<nat>
  {
    match cell
    case None => None
    case Some(s) => ParseRate(s)
  }

  /** One row with its rate converted; None when the rate is no number. */
  function ReadRow(row: FrameRow): Option<Point>
  {
    match ReadRate(row.rate)
    case None => None
    case Some(h) => Some(Point(row.month, row.team, row.ttype, h))
  }

  /**
   * A column apply: `f` on every element, failing as a whole (None) when
   * it fails on any element.
   */
  function MapAll<T, U>(s: seq<T>, f: T -> Option<U>): (r: Option<seq<U>>)
    ensures r.Some? ==> |r.value| == |s|
  {
    if s == [] then Some([])
    else
      match (MapAll(s[..|s| - 1], f), f(s[|s| - 1]))
      case (Some(r), Some(v)) => Some(r + [v])
      case _ => None
  }

  /** The apply fails exactly where `f` fails on some element, and otherwise keeps every result in place. */
  lemma {:induction false} MapAllSpec<T, U>(s: seq<T>, f: T -> Option<U>)
    ensures MapAll(s, f).None? <==> exists i :: 0 <= i < |s| && f(s[i]).None?
    ensures MapAll(s, f).Some? ==> forall i :: 0 <= i < |s| ==> f(s[i]) == Some(MapAll(s, f).value[i])
  {
    if s != [] {
      var init := s[..|s| - 1];
      MapAllSpec(init, f);
      assert forall i :: 0 <= i < |init| ==> init[i] == s[i];
    }
  }

  predicate IsRequest(p: Point)
  {
    p.ttype == TypeLabel(RequestType)
  }

  /**
   * df['工单解决率'] converted on every row, then the rows of type 服务请求
   * kept: None when some rate, of any type, does not read as a number;
   * otherwise the request rows' points, in order.
   */
  function RequestPoints(rows: seq<FrameRow>): Option<seq<Point>>
  {
    match MapAll(rows, ReadRow)
    case None => None
    case Some(ps) => Some(Filter(ps, IsRequest))
  }

  /** The points are those of the request rows; the conversion fails exactly when some row's rate is no number. */
  lemma RequestPointsSpec(rows: seq<FrameRow>)
    ensures RequestPoints(rows).None? <==> exists i :: 0 <= i < |rows| && ReadRow(rows[i]).None?
    ensures RequestPoints(rows).Some? ==> forall p :: p in RequestPoints(rows).value <==>
      exists i :: 0 <= i < |rows| && ReadRow(rows[i]) == Some(p) && IsRequest(p)
  {
    MapAllSpec(rows, ReadRow);
    match MapAll(rows, ReadRow)
    case None =>
    case Some(ps) =>
      forall p | p in ps ensures exists i :: 0 <= i < |rows| && ReadRow(rows[i]) == Some(p) {
        var i :| 0 <= i < |ps| && ps[i] == p;
      }
  }

  predicate Matches(p: Point, team: string, month: string)
  {
    p.team == team && p.month == month
  }

  /**
   * The rate of the first point of `team` in `month` (.iloc[0] of the
   * selection): no earlier point matches; None when there is none.
   */
  function FirstRate(points: seq<Point>, team: string, month: string): (r: Option<nat>)
    ensures r.None? <==> forall i :: 0 <= i < |points| ==> !Matches(points[i], team, month)
    ensures r.Some? ==> exists i ::
      && 0 <= i < |points| && Matches(points[i], team, month) && points[i].rate == r.value
      && forall k :: 0 <= k < i ==> !Matches(points[k], team, month)
  {
    if points == [] then None
    else if Matches(points[0], team, month) then Some(points[0].rate)
    else
      var r := FirstRate(points[1..], team, month);
      assert forall i :: 1 <= i < |points| ==> points[i] == points[1..][i - 1];
      if r.Some? then
        var i :| 0 <= i < |points[1..]| && Matches(points[1..][i], team, month) && points[1..][i].rate == r.value
          && forall k :: 0 <= k < i ==> !Matches(points[1..][k], team, month);
        assert Matches(points[i + 1], team, month) && forall k :: 0 <= k < i + 1 ==> !Matches(points[k], team, month);
        r
      else r
  }

  function MonthOf(p: Point): string
  {
    p.month
  }

  lemma StrLeIsTotalPreorder()
    ensures TotalPreorder(StrLe)
  {
    forall a: string, b: string ensures StrLe(a, b) || StrLe(b, a) {
      StrLtTrichotomy(a, b);
    }
    forall a: string, b: string, c: string | StrLe(a, b) && StrLe(b, c) ensures StrLe(a, c) {
      if StrLt(a, b) && StrLt(b, c) {
        StrLtTransitive(a, b, c);
      }
    }
  }

  /** sorted(set(service_request_df['月份'])): every month of a point, once, in increasing order. */
  function Months(points: seq<Point>): (x: seq<string>)
    ensures forall i, j :: 0 <= i < j < |x| ==> StrLt(x[i], x[j])
    ensures forall m :: m in x <==> exists i :: 0 <= i < |points| && points[i].month == m
  {
    var d := KeysOf(points, MonthOf);
    MonthsOfPoints(points);
    SortedStrictly(d);
    SortBy(d, StrLe)
  }

  lemma MonthsOfPoints(points: seq<Point>)
    ensures forall m :: m in KeysOf(points, MonthOf) <==> exists i :: 0 <= i < |points| && points[i].month == m
  {
    var ks := KeysOf(points, MonthOf);
    forall m | m in ks ensures exists i :: 0 <= i < |points| && points[i].month == m {
      var j :| 0 <= j < |ks| && ks[j] == m;
      var i :| 0 <= i < |points| && MonthOf(points[i]) == ks[j];
    }
  }

  /** Sorting distinct texts puts them in strictly increasing order and keeps every one of them. */
  lemma SortedStrictly(d: seq<string>)
    requires NoDup(d)
    ensures var x := SortBy(d, StrLe);
      && (forall i, j :: 0 <= i < j < |x| ==> StrLt(x[i], x[j]))
      && (forall m :: m in x <==> m in d)
  {
    var x := SortBy(d, StrLe);
    StrLeIsTotalPreorder();
    SortBySorted(d, StrLe);
    MultisetNoDup(d, x);
    forall m ensures m in x <==> m in d {
      assert m in x <==> m in multiset(x);
    }
  }

  /** The teams of the points: set(service_request_df['团队']). */
  function Teams(points: seq<Point>): set<string>
  {
    set i | 0 <= i < |points| :: points[i].team
  }

  /**
   * The loops of _add_team_stats: one series per team, taken from the set
   * of teams in the order Python's set yields them (any order), each with
   * one entry per month of x: the first matching rate, or None where the
   * team has no row for that month.
   */
  method TeamGrid(points: seq<Point>) returns (x: seq<string>, lineTypes: seq<string>, y: seq<seq<Option<nat>>>)
    ensures x == Months(points)
    ensures NoDup(lineTypes) && |lineTypes| == |Teams(points)|
    ensures forall t :: t in lineTypes <==> t in Teams(points)
    ensures |y| == |lineTypes|
    ensures forall k :: 0 <= k < |y| ==> |y[k]| == |x|
    ensures forall k, j :: 0 <= k < |y| && 0 <= j < |x| ==> y[k][j] == FirstRate(points, lineTypes[k], x[j])
  {
    x := Months(points);
    var left := Teams(points);
    lineTypes, y := [], [];
    while left != {}
      invariant GridSoFar(points, x, lineTypes, y, left)
      decreases |left|
    {
      var team :| team in left;
      var rates := Series(points, team, x);
      GridStep(points, x, lineTypes, y, left, team, rates);
      lineTypes := lineTypes + [team];
      y := y + [rates];
      left := left - {team};
    }
  }

  /** The loop invariant of TeamGrid: the series built so far are those of the teams not left. */
  ghost predicate GridSoFar(points: seq<Point>, x: seq<string>, lineTypes: seq<string>, y: seq<seq<Option<nat>>>, left: set<string>)
  {
    && left <= Teams(points)
    && (forall t :: t in lineTypes <==> t in Teams(points) && t !in left)
    && NoDup(lineTypes) && |lineTypes| + |left| == |Teams(points)|
    && |y| == |lineTypes|
    && (forall k :: 0 <= k < |y| ==> |y[k]| == |x|)
    && (forall k, j :: 0 <= k < |y| && 0 <= j < |x| ==> y[k][j] == FirstRate(points, lineTypes[k], x[j]))
  }

  /** Taking one more team out of the set and appending its series keeps the invariant. */
  lemma GridStep(points: seq<Point>, x: seq<string>, lineTypes: seq<string>, y: seq<seq<Option<nat>>>,
                 left: set<string>, team: string, rates: seq<Option<nat>>)
    requires GridSoFar(points, x, lineTypes, y, left) && team in left
    requires |rates| == |x| && forall j :: 0 <= j < |x| ==> rates[j] == FirstRate(points, team, x[j])
    ensures GridSoFar(points, x, lineTypes + [team], y + [rates], left - {team})
  {
    var l, y' := lineTypes + [team], y + [rates];
    assert team !in lineTypes;
    assert forall k :: 0 <= k < |lineTypes| ==> l[k] == lineTypes[k];
    assert forall k :: 0 <= k < |y| ==> y'[k] == y[k];
  }

  /** The inner loop: the team's rate for every month of x, None where it has no row. */
  method Series(points: seq<Point>, team: string, x: seq<string>) returns (rates: seq<Option<nat>>)
    ensures |rates| == |x|
    ensures forall j :: 0 <= j < |x| ==> rates[j] == FirstRate(points, team, x[j])
  {
    rates := [];
    var j := 0;
    while j < |x|
      invariant 0 <= j <= |x| && |rates| == j
      invariant forall i :: 0 <= i < j ==> rates[i] == FirstRate(points, team, x[i])
    {
      rates := rates + [FirstRate(points, team, x[j])];
      j := j + 1;
    }
  }

  /**
   * The team rollup always converts: every row of it has a group of at
   * least one ticket, so its 工单解决率 is a rate text that reads back as
   * the rate of its counts.
   */
  lemma RollupRatesRead(fork: Fork, dir: Directory, rows: seq<Ticket>, start: Date, end: Date)
    requires forall t :: t in rows ==> ValidDate(t.start.date)
    ensures RequestPoints(Map(Rollup(fork, dir, ByTeam, rows, start, end), FrameRowOf)).Some?
  {
    var r := Rollup(fork, dir, ByTeam, rows, start, end);
    var f := Map(r, FrameRowOf);
    RollupWellFormed(fork, dir, ByTeam, rows, start, end);
    forall i | 0 <= i < |f| ensures ReadRow(f[i]).Some? {
      assert WellFormed(fork, r[i]);
    }
    RequestPointsSpec(f);
  }
}
