/**
 * The Infra and App KPI tables (get_infra_kpi_stats, get_app_kpi_stats).
 * Each runs in two passes: a discovery query lists the service names of
 * the period, a Python loop turns them into three SELECT-list strings,
 * and those strings are spliced into a pivot query. The pivot rates each
 * (month, service) group, adds a '总计' line per service, and folds
 * everything per month into one row with a weighted KPI总计.
 */
module Kpi {
  import opened Wrappers
  import opened Seqs
  import opened Calendar
  import opened Tickets
  import opened Text
  import opened Measures

  /** Infrastructure services (`s.name <> '应用'`) or the application service (`s.name = '应用'`). */
  datatype Side = Infra | App

  const AppService := "应用"
  const Unclassified := "未分类"

  /** The WHERE on the parent service name; a NULL name passes neither test. */
  predicate OnSide(side: Side, t: Ticket)
  {
    match side
    case Infra => t.service.Some? && t.service.value != AppService
    case App => t.service == Some(AppService)
  }

  /**
   * The rows of the UNION ALL of requests and incidents: started in the
   * period, status other than 'new', on the side's services.
   */
  function KpiScope(side: Side, start: Date, end: Date): Ticket -> bool
  {
    (t: Ticket) => t.cls != Change && InScope(t, start, end) && OnSide(side, t)
  }

  /** COALESCE(s2.name, COALESCE(s.name, '未分类')): the sub-service first. */
  function PivotKey(t: Ticket): string
  {
    t.subservice.GetOr(t.service.GetOr(Unclassified))
  }

  /** COALESCE(s.name, COALESCE(s2.name, '未分类')): the parent service first. */
  function ParentFirstKey(t: Ticket): string
  {
    t.service.GetOr(t.subservice.GetOr(Unclassified))
  }

  /**
   * The key of the discovery query: parent first in the infrastructure
   * query of the Latest version, sub-service first everywhere else.
   */
  function DiscoveryKey(fork: Fork, side: Side): Ticket -> string
  {
    if fork == Latest && side == Infra then ParentFirstKey else PivotKey
  }

  /** SELECT DISTINCT of the discovery key over the rows in scope, in order of first appearance. */
  function Discover(fork: Fork, side: Side, rows: seq<Ticket>, start: Date, end: Date): (r: seq<string>)
    ensures NoDup(r)
  {
    KeysOf(Filter(rows, KpiScope(side, start, end)), DiscoveryKey(fork, side))
  }

  /** Outside the Latest infrastructure query, the discovered names are exactly the pivot keys of the tickets in scope. */
  lemma DiscoveryMatchesPivot(fork: Fork, side: Side, rows: seq<Ticket>, start: Date, end: Date)
    requires !(fork == Latest && side == Infra)
    ensures forall x :: x in Discover(fork, side, rows, start, end) <==>
      exists t :: t in rows && KpiScope(side, start, end)(t) && PivotKey(t) == x
  {
    var scope := KpiScope(side, start, end);
    assert DiscoveryKey(fork, side) == PivotKey;
    KeysOfScope(rows, scope, PivotKey);
  }

  /**
   * The Latest infrastructure discovery lists the parent service names of
   * the tickets in scope, whether or not the tickets have a sub-service.
   */
  lemma LatestInfraDiscoversParents(rows: seq<Ticket>, start: Date, end: Date)
    ensures forall x :: x in Discover(Latest, Infra, rows, start, end) <==>
      exists t :: t in rows && KpiScope(Infra, start, end)(t) && t.service == Some(x)
  {
    var scope := KpiScope(Infra, start, end);
    KeysOfScope(rows, scope, ParentFirstKey);
    forall t | scope(t) ensures ParentFirstKey(t) == t.service.value {
    }
  }

  /** The distinct keys of the rows meeting `p` are the keys of those rows. */
  lemma KeysOfScope<T, K>(rows: seq<T>, p: T -> bool, key: T -> K)
    ensures forall x :: x in KeysOf(Filter(rows, p), key) <==> exists t :: t in rows && p(t) && key(t) == x
  {
    var ts := Filter(rows, p);
    var ks := KeysOf(ts, key);
    forall x | x in ks ensures exists t :: t in rows && p(t) && key(t) == x {
      var j :| 0 <= j < |ks| && ks[j] == x;
      var i :| 0 <= i < |ts| && key(ts[i]) == x;
      assert ts[i] in ts;
    }
    forall t | t in rows && p(t) ensures key(t) in ks {
      assert t in ts;
      var i :| 0 <= i < |ts| && ts[i] == t;
    }
  }

  // ---------------------------------------------------------------------
  // The column loop.

  function IsColumn(name: string): bool
  {
    name != Unclassified
  }

  /** The discovered names that become columns: all but '未分类', which has its own fixed column. */
  function Columns(names: seq<string>): (r: seq<string>)
    ensures forall x :: x in r <==> x in names && x != Unclassified
    ensures NoDup(names) ==> NoDup(r)
  {
    var r := Filter(names, IsColumn);
    assert NoDup(names) ==> NoDup(r) by {
      if NoDup(names) {
        FilterNoDup(names, IsColumn);
      }
    }
    r
  }

  /** The fragment of the monthly SELECT list for the column `name`. */
  function TmpFragment(name: string): string
  {
    "CASE WHEN tmp_info.service_name = '" + name + "' THEN tmp_info.ticket_resolution_rate ELSE null END AS '" + name + "',"
  }

  /** The fragment of the outer SELECT list for the column `name`. */
  function AvgFragment(name: string): string
  {
    "CONCAT(AVG(tmp.`" + name + "`), '%%') AS '" + name + "',"
  }

  /** The fragment of the '总计' SELECT list for the column `name`. */
  function TotalFragment(name: string): string
  {
    "CASE WHEN tmp1.service_name = '" + name + "' THEN tmp1.ticket_resolution_rate ELSE null END AS '" + name + "',"
  }

  function Concat(parts: seq<string>): string
  {
    if parts == [] then "" else Concat(parts[..|parts| - 1]) + parts[|parts| - 1]
  }

  /**
   * The `for index, row in service.iterrows()` loop: each name other than
   * '未分类' appends one fragment to each of the three strings.
   */
  method BuildColumns(names: seq<string>) returns (tmpColumns: string, columns: string, totalColumns: string)
    ensures tmpColumns == Concat(Map(Columns(names), TmpFragment))
    ensures columns == Concat(Map(Columns(names), AvgFragment))
    ensures totalColumns == Concat(Map(Columns(names), TotalFragment))
  {
    tmpColumns, columns, totalColumns := "", "", "";
    var i := 0;
    while i < |names|
      invariant 0 <= i <= |names|
      invariant tmpColumns == Concat(Map(Filter(names[..i], IsColumn), TmpFragment))
      invariant columns == Concat(Map(Filter(names[..i], IsColumn), AvgFragment))
      invariant totalColumns == Concat(Map(Filter(names[..i], IsColumn), TotalFragment))
    {
      var name := names[i];
      ColumnStep(names, i, TmpFragment);
      ColumnStep(names, i, AvgFragment);
      ColumnStep(names, i, TotalFragment);
      if name != Unclassified {
        tmpColumns := tmpColumns + TmpFragment(name);
        columns := columns + AvgFragment(name);
        totalColumns := totalColumns + TotalFragment(name);
      }
      i := i + 1;
    }
    assert names[..i] == names;
  }

  /** One more name appends its fragment, or nothing for '未分类'. */
  lemma ColumnStep(names: seq<string>, i: nat, f: string -> string)
    requires i < |names|
    ensures Concat(Map(Filter(names[..i + 1], IsColumn), f))
      == Concat(Map(Filter(names[..i], IsColumn), f)) + (if IsColumn(names[i]) then f(names[i]) else "")
  {
    var p, q := names[..i], names[..i + 1];
    assert q[..|q| - 1] == p && q[|q| - 1] == names[i];
    var c := Filter(p, IsColumn);
    if IsColumn(names[i]) {
      assert Filter(q, IsColumn) == c + [names[i]];
      var m := Map(c + [names[i]], f);
      assert m[..|m| - 1] == Map(c, f);
    } else {
      assert Filter(q, IsColumn) == c;
    }
  }

  /** A fragment names its column twice, so different columns never share a fragment. */
  lemma FragmentInjective(a: string, b: string)
    ensures TmpFragment(a) == TmpFragment(b) <==> a == b
    ensures AvgFragment(a) == AvgFragment(b) <==> a == b
    ensures TotalFragment(a) == TotalFragment(b) <==> a == b
  {
    Splice("CASE WHEN tmp_info.service_name = '", a, b,
      "' THEN tmp_info.ticket_resolution_rate ELSE null END AS '", "',");
    Splice("CONCAT(AVG(tmp.`", a, b, "`), '%%') AS '", "',");
    Splice("CASE WHEN tmp1.service_name = '", a, b,
      "' THEN tmp1.ticket_resolution_rate ELSE null END AS '", "',");
  }

  /** p + x + m + x + s determines x. */
  lemma Splice(p: string, a: string, b: string, m: string, s: string)
    ensures p + a + m + a + s == p + b + m + b + s <==> a == b
  {
    if p + a + m + a + s == p + b + m + b + s {
      assert |a| == |b|;
      assert p + a + m + a + s == (p + a) + (m + a + s);
      assert p + b + m + b + s == (p + b) + (m + b + s);
      SameLengthConcat(p + a, m + a + s, p + b, m + b + s);
      SameLengthConcat(p, a, p, b);
    }
  }

  // ---------------------------------------------------------------------
  // tmp_info: one row per (month, parent service, sub-service).

  /**
   * A ticket the KPI counts as not resolved: an open status, or in the
   * Latest version also a breached 100% resolution deadline.
   */
  predicate KpiUnresolved(fork: Fork, t: Ticket)
  {
    IsUnresolved(t.status) || (fork == Latest && IsOne(t.sla.ttr100))
  }

  function Unsolved(fork: Fork): Ticket -> bool
  {
    (t: Ticket) => KpiUnresolved(fork, t)
  }

  /** 1 for a ticket the KPI counts as resolved, else 0. */
  function Solved(fork: Fork): Ticket -> nat
  {
    (t: Ticket) => if KpiUnresolved(fork, t) then 0 else 1
  }

  /** GROUP BY DATE_FORMAT(start_date, '%Y年%m月'), s.name, s2.name. */
  datatype InfoKey = InfoKey(month: int, parent: Option<string>, sub: Option<string>)

  function InfoKeyOf(t: Ticket): InfoKey
  {
    InfoKey(MonthIndex(t.start.date), t.service, t.subservice)
  }

  function ServiceName(k: InfoKey): string
  {
    k.sub.GetOr(k.parent.GetOr(Unclassified))
  }

  /**
   * A tmp_info row. Months are kept as month numbers: the '%Y年%m月'
   * label is the same text exactly when the month is the same
   * (Calendar.MonthLabelInjective), so grouping by either is the same.
   */
  datatype Info = Info(month: int, service: string, total: nat, resolved: nat, rate: Option<string>)

  function InfoTotal(i: Info): nat
  {
    i.total
  }

  function InfoResolved(i: Info): nat
  {
    i.resolved
  }

  /** What every tmp_info row satisfies: a non-empty group, so a rate that is never NULL. */
  predicate InfoOk(i: Info)
  {
    i.total > 0 && i.rate.Some? && i.resolved <= i.total
  }

  /**
   * The tmp_info row of the group `g` with key `k`: COUNT(*), COUNT(*)
   * minus the unresolved ones, and the rate of the two as text.
   */
  function InfoRow(fork: Fork, k: InfoKey, g: seq<Ticket>): (r: Info)
    requires g != []
    ensures InfoOk(r) && r.month == k.month && r.service == ServiceName(k)
    ensures r.total == |g| && r.resolved == |g| - Count(g, Unsolved(fork))
    ensures ParseRate(r.rate.value) == Rate(r.resolved, r.total)
  {
    var resolved := |g| - Count(g, Unsolved(fork));
    Info(k.month, ServiceName(k), |g|, resolved, RateText(resolved, |g|))
  }

  /** Each ticket the Latest rule counts as resolved the Dated rule counts too. */
  lemma ResolvedRuleForks(g: seq<Ticket>)
    requires g != []
    ensures forall k :: InfoRow(Dated, k, g).resolved >= InfoRow(Latest, k, g).resolved
    ensures (forall i :: 0 <= i < |g| ==> g[i].sla.ttr100 != Some(1)) ==>
      forall k :: InfoRow(Dated, k, g).resolved == InfoRow(Latest, k, g).resolved
  {
    CountImplies(g, Unsolved(Dated), Unsolved(Latest));
    if forall i :: 0 <= i < |g| ==> g[i].sla.ttr100 != Some(1) {
      CountImplies(g, Unsolved(Latest), Unsolved(Dated));
    }
  }

  function InfoAt(fork: Fork, ts: seq<Ticket>, ks: seq<InfoKey>, j: nat): (r: Info)
    requires ks == KeysOf(ts, InfoKeyOf) && j < |ks|
    ensures InfoOk(r) && r.month == ks[j].month && r.service == ServiceName(ks[j])
    ensures r.total == SumOf(WithKey(ts, InfoKeyOf, ks[j]), One)
    ensures r.resolved == SumOf(WithKey(ts, InfoKeyOf, ks[j]), Solved(fork))
  {
    var g := WithKey(ts, InfoKeyOf, ks[j]);
    GroupNonEmpty(ts, InfoKeyOf, ks, j);
    SumOfOne(g);
    CountComplement(g, Unsolved(fork), Solved(fork));
    InfoRow(fork, ks[j], g)
  }

  /** The tmp_info rows of the tickets `ts`, in order of first appearance. */
  function InfoRows(fork: Fork, ts: seq<Ticket>): (r: seq<Info>)
    ensures forall i :: 0 <= i < |r| ==> InfoOk(r[i])
  {
    var ks := KeysOf(ts, InfoKeyOf);
    seq(|ks|, j requires 0 <= j < |ks| => InfoAt(fork, ts, ks, j))
  }

  // ---------------------------------------------------------------------
  // The two halves of the UNION.

  /** The ticket_month column: a month, or the literal '总计'. */
  datatype Month = MonthOf(index: int) | GrandTotal

  /**
   * A row of the UNION: the month, one nullable rate per column, the
   * '未分类' rate, 工单总数 and 已解决. It carries no service name.
   */
  datatype Pivot = Pivot(month: Month, cells: seq<Option<string>>, unclassified: Option<string>, total: nat, resolved: nat)

  function MonthOfPivot(p: Pivot): Month
  {
    p.month
  }

  function PivotTotal(p: Pivot): nat
  {
    p.total
  }

  function PivotResolved(p: Pivot): nat
  {
    p.resolved
  }

  /** CASE WHEN service_name = '<column>' THEN rate ELSE null END, for every column. */
  function Cells(cols: seq<string>, service: string, rate: Option<string>): (r: seq<Option<string>>)
    ensures |r| == |cols|
    ensures forall c :: 0 <= c < |cols| ==> r[c] == if cols[c] == service then rate else None
  {
    seq(|cols|, c requires 0 <= c < |cols| => if cols[c] == service then rate else None)
  }

  /**
   * The cells of `p` are those of the service `s`: set in the column
   * named `s`, or in '未分类' for '未分类', and nowhere else.
   */
  predicate TagOf(cols: seq<string>, p: Pivot, s: string)
  {
    && |p.cells| == |cols|
    && (forall c :: 0 <= c < |cols| ==> (p.cells[c].Some? <==> cols[c] == s))
    && (p.unclassified.Some? <==> s == Unclassified)
  }

  /** The cells that TagOf sets for the service `s` hold `rate`. */
  predicate Holds(cols: seq<string>, p: Pivot, s: string, rate: Option<string>)
  {
    && |p.cells| == |cols|
    && (forall c :: 0 <= c < |cols| && cols[c] == s ==> p.cells[c] == rate)
    && (s == Unclassified ==> p.unclassified == rate)
  }

  /** GROUP BY tmp_info.ticket_month, tmp_info.service_name. */
  datatype InnerKey = InnerKey(month: int, service: string)

  function InnerKeyOf(i: Info): InnerKey
  {
    InnerKey(i.month, i.service)
  }

  function InnerService(k: InnerKey): string
  {
    k.service
  }

  /**
   * The monthly row of the group `h` of tmp_info rows with key `k`. The
   * rate is not aggregated, so it is that of the group's first row; the
   * counts are summed.
   */
  function MonthPivot(cols: seq<string>, k: InnerKey, h: seq<Info>): (r: Pivot)
    requires h != [] && InfoOk(h[0])
    ensures r.month == MonthOf(k.month) && TagOf(cols, r, k.service)
    ensures Holds(cols, r, k.service, h[0].rate)
    ensures r.total == SumOf(h, InfoTotal) && r.resolved == SumOf(h, InfoResolved)
  {
    var rate := h[0].rate;
    Pivot(MonthOf(k.month), Cells(cols, k.service, rate),
      if k.service == Unclassified then rate else None,
      SumOf(h, InfoTotal), SumOf(h, InfoResolved))
  }

  function MonthPivotAt(cols: seq<string>, infos: seq<Info>, ks: seq<InnerKey>, j: nat): (r: Pivot)
    requires (forall i :: 0 <= i < |infos| ==> InfoOk(infos[i])) && ks == KeysOf(infos, InnerKeyOf) && j < |ks|
    ensures r.month == MonthOf(ks[j].month) && TagOf(cols, r, ks[j].service)
    ensures r.total == SumOf(WithKey(infos, InnerKeyOf, ks[j]), InfoTotal)
    ensures r.resolved == SumOf(WithKey(infos, InnerKeyOf, ks[j]), InfoResolved)
    ensures WithKey(infos, InnerKeyOf, ks[j]) != []
      && Holds(cols, r, ks[j].service, WithKey(infos, InnerKeyOf, ks[j])[0].rate)
  {
    var h := WithKey(infos, InnerKeyOf, ks[j]);
    GroupNonEmpty(infos, InnerKeyOf, ks, j);
    MonthPivot(cols, ks[j], h)
  }

  /** The first half of the UNION: one row per (month, service). */
  function MonthPivots(cols: seq<string>, infos: seq<Info>): (r: seq<Pivot>)
    requires forall i :: 0 <= i < |infos| ==> InfoOk(infos[i])
  {
    var ks := KeysOf(infos, InnerKeyOf);
    seq(|ks|, j requires 0 <= j < |ks| => MonthPivotAt(cols, infos, ks, j))
  }

  function ServiceOf(i: Info): string
  {
    i.service
  }

  /**
   * The '总计' row of the service `s`, whose tmp_info rows are `h`
   * (tmp1 grouped once more by service_name, one row per group): the
   * service's counts over all months and the rate of their sums.
   */
  function TotalPivot(cols: seq<string>, s: string, h: seq<Info>): (r: Pivot)
    requires h != [] && InfoOk(h[|h| - 1])
    ensures r.month == GrandTotal && TagOf(cols, r, s)
    ensures Holds(cols, r, s, RateText(r.resolved, r.total))
    ensures r.total == SumOf(h, InfoTotal) && r.resolved == SumOf(h, InfoResolved)
  {
    var total, resolved := SumOf(h, InfoTotal), SumOf(h, InfoResolved);
    var rate := RateText(resolved, total);
    Pivot(GrandTotal, Cells(cols, s, rate), if s == Unclassified then rate else None, total, resolved)
  }

  function TotalPivotAt(cols: seq<string>, infos: seq<Info>, ks: seq<string>, j: nat): (r: Pivot)
    requires (forall i :: 0 <= i < |infos| ==> InfoOk(infos[i])) && ks == KeysOf(infos, ServiceOf) && j < |ks|
    ensures r.month == GrandTotal && TagOf(cols, r, ks[j])
    ensures r.total == SumOf(WithKey(infos, ServiceOf, ks[j]), InfoTotal)
    ensures r.resolved == SumOf(WithKey(infos, ServiceOf, ks[j]), InfoResolved)
  {
    var h := WithKey(infos, ServiceOf, ks[j]);
    GroupNonEmpty(infos, ServiceOf, ks, j);
    assert h[|h| - 1] in h;
    TotalPivot(cols, ks[j], h)
  }

  /** The second half of the UNION: one '总计' row per service. */
  function TotalPivots(cols: seq<string>, infos: seq<Info>): (r: seq<Pivot>)
    requires forall i :: 0 <= i < |infos| ==> InfoOk(infos[i])
  {
    var ks := KeysOf(infos, ServiceOf);
    seq(|ks|, j requires 0 <= j < |ks| => TotalPivotAt(cols, infos, ks, j))
  }

  // ---------------------------------------------------------------------
  // The outer query: GROUP BY tmp.ticket_month.

  /**
   * One output row. A column cell is CONCAT(AVG(...), '%') over the rates
   * of the month; the model keeps the non-NULL rates that AVG receives.
   */
  datatype KpiRow = KpiRow(
    month: Month, cells: seq<seq<string>>, unclassified: seq<string>,
    kpi: Option<string>, total: nat, resolved: nat)

  function CellAt(c: nat): Pivot -> Option<string>
  {
    (p: Pivot) => if c < |p.cells| then p.cells[c] else None
  }

  function UnclassifiedOf(p: Pivot): Option<string>
  {
    p.unclassified
  }

  /** The row of the month `m`, whose UNION rows are `h`: KPI总计 is the rate of the summed counts. */
  function OuterRow(cols: seq<string>, m: Month, h: seq<Pivot>): (r: KpiRow)
    ensures r.month == m && |r.cells| == |cols|
    ensures r.total == SumOf(h, PivotTotal) && r.resolved == SumOf(h, PivotResolved)
    ensures r.kpi.Some? <==> r.total > 0
    ensures r.kpi.Some? ==> ParseRate(r.kpi.value) == Rate(r.resolved, r.total)
  {
    var total, resolved := SumOf(h, PivotTotal), SumOf(h, PivotResolved);
    KpiRow(m,
      seq(|cols|, c requires 0 <= c < |cols| => NonNull(Map(h, CellAt(c)))),
      NonNull(Map(h, UnclassifiedOf)),
      RateText(resolved, total), total, resolved)
  }

  /** UNION: the rows of both halves, each distinct row once. */
  function Union(cols: seq<string>, infos: seq<Info>): (r: seq<Pivot>)
    requires forall i :: 0 <= i < |infos| ==> InfoOk(infos[i])
    ensures NoDup(r)
  {
    Distinct(MonthPivots(cols, infos) + TotalPivots(cols, infos))
  }

  /**
   * The pivot query over the tickets in scope `ts`, with the columns
   * `cols` spliced in: one row per month, and one '总计' row. The query
   * has no ORDER BY; the model lists the rows in order of first appearance.
   */
  function KpiTable(fork: Fork, cols: seq<string>, ts: seq<Ticket>): (r: seq<KpiRow>)
  {
    OuterRows(cols, Union(cols, InfoRows(fork, ts)))
  }

  /** GROUP BY tmp.ticket_month over the UNION rows `u`. */
  function OuterRows(cols: seq<string>, u: seq<Pivot>): (r: seq<KpiRow>)
  {
    var ms := KeysOf(u, MonthOfPivot);
    seq(|ms|, j requires 0 <= j < |ms| => OuterRow(cols, ms[j], WithKey(u, MonthOfPivot, ms[j])))
  }

  /** get_infra_kpi_stats (side Infra) and get_app_kpi_stats (side App) of one version. */
  function KpiStats(fork: Fork, side: Side, rows: seq<Ticket>, start: Date, end: Date): (r: seq<KpiRow>)
  {
    var cols := Columns(Discover(fork, side, rows, start, end));
    KpiTable(fork, cols, Filter(rows, KpiScope(side, start, end)))
  }

  // ---------------------------------------------------------------------
  // Which service each UNION row belongs to.

  /** `tags[i]` is the service whose cells the row `x[i]` holds. */
  predicate Tagged(cols: seq<string>, x: seq<Pivot>, tags: seq<string>)
  {
    |tags| == |x| && forall i :: 0 <= i < |x| ==> TagOf(cols, x[i], tags[i])
  }

  /** No two rows of one month belong to the same service. */
  predicate Separated(x: seq<Pivot>, tags: seq<string>)
  {
    |tags| == |x| && forall i, j :: 0 <= i < j < |x| && x[i].month == x[j].month ==> tags[i] != tags[j]
  }

  lemma MonthPivotsTagged(cols: seq<string>, infos: seq<Info>)
    requires forall i :: 0 <= i < |infos| ==> InfoOk(infos[i])
    ensures var mp, tags := MonthPivots(cols, infos), Map(KeysOf(infos, InnerKeyOf), InnerService);
      && Tagged(cols, mp, tags) && Separated(mp, tags)
      && (forall i :: 0 <= i < |mp| ==> mp[i].month != GrandTotal)
  {
    var ks := KeysOf(infos, InnerKeyOf);
    var mp, tags := MonthPivots(cols, infos), Map(ks, InnerService);
    assert |mp| == |ks|;
    forall i | 0 <= i < |mp| ensures TagOf(cols, mp[i], tags[i]) && mp[i].month == MonthOf(ks[i].month) {
      assert mp[i] == MonthPivotAt(cols, infos, ks, i);
    }
    forall i, j | 0 <= i < j < |mp| && mp[i].month == mp[j].month ensures tags[i] != tags[j] {
      assert ks[i] != ks[j];
    }
  }

  lemma TotalPivotsTagged(cols: seq<string>, infos: seq<Info>)
    requires forall i :: 0 <= i < |infos| ==> InfoOk(infos[i])
    ensures var tp, tags := TotalPivots(cols, infos), KeysOf(infos, ServiceOf);
      && Tagged(cols, tp, tags) && Separated(tp, tags)
      && (forall i :: 0 <= i < |tp| ==> tp[i].month == GrandTotal)
  {
    var ks := KeysOf(infos, ServiceOf);
    var tp := TotalPivots(cols, infos);
    assert |tp| == |ks|;
    forall i | 0 <= i < |tp| ensures TagOf(cols, tp[i], ks[i]) && tp[i].month == GrandTotal {
      assert tp[i] == TotalPivotAt(cols, infos, ks, i);
    }
    assert Separated(tp, ks) by {
      assert NoDup(ks);
    }
  }

  lemma TaggedAppend(cols: seq<string>, a: seq<Pivot>, ta: seq<string>, b: seq<Pivot>, tb: seq<string>)
    requires Tagged(cols, a, ta) && Separated(a, ta) && Tagged(cols, b, tb) && Separated(b, tb)
    requires forall i, j :: 0 <= i < |a| && 0 <= j < |b| ==> a[i].month != b[j].month
    ensures Tagged(cols, a + b, ta + tb) && Separated(a + b, ta + tb)
  {
    var x, t := a + b, ta + tb;
    forall i | 0 <= i < |x| ensures TagOf(cols, x[i], t[i]) {
      if i < |a| {
        assert x[i] == a[i] && t[i] == ta[i];
      } else {
        assert x[i] == b[i - |a|] && t[i] == tb[i - |a|];
      }
    }
    forall i, j | 0 <= i < j < |x| && x[i].month == x[j].month ensures t[i] != t[j] {
      if j < |a| {
        assert x[i] == a[i] && x[j] == a[j] && t[i] == ta[i] && t[j] == ta[j];
      } else if i >= |a| {
        assert x[i] == b[i - |a|] && x[j] == b[j - |a|] && t[i] == tb[i - |a|] && t[j] == tb[j - |a|];
      }
    }
  }

  /** The UNION's input with the service of each row. */
  lemma UnionTagged(cols: seq<string>, infos: seq<Info>)
    requires forall i :: 0 <= i < |infos| ==> InfoOk(infos[i])
    ensures var x := MonthPivots(cols, infos) + TotalPivots(cols, infos);
      var tags := Map(KeysOf(infos, InnerKeyOf), InnerService) + KeysOf(infos, ServiceOf);
      Tagged(cols, x, tags) && Separated(x, tags)
  {
    MonthPivotsTagged(cols, infos);
    TotalPivotsTagged(cols, infos);
    TaggedAppend(cols, MonthPivots(cols, infos), Map(KeysOf(infos, InnerKeyOf), InnerService),
      TotalPivots(cols, infos), KeysOf(infos, ServiceOf));
  }

  // ---------------------------------------------------------------------
  // At most one rate per cell.

  /** No column, and not '未分类', is set in two rows of `h`. */
  predicate Exclusive(h: seq<Pivot>)
  {
    forall a, b :: 0 <= a < b < |h| ==>
      && !(h[a].unclassified.Some? && h[b].unclassified.Some?)
      && forall c :: 0 <= c < |h[a].cells| && c < |h[b].cells| ==> !(h[a].cells[c].Some? && h[b].cells[c].Some?)
  }

  /** The UNION rows of one month never set the same column twice. */
  lemma GroupExclusive(cols: seq<string>, x: seq<Pivot>, tags: seq<string>, m: Month)
    requires Tagged(cols, x, tags) && Separated(x, tags)
    ensures Exclusive(WithKey(Distinct(x), MonthOfPivot, m))
  {
    var h := WithKey(Distinct(x), MonthOfPivot, m);
    WithKeyNoDup(Distinct(x), MonthOfPivot, m);
    forall a, b | 0 <= a < b < |h|
      ensures !(h[a].unclassified.Some? && h[b].unclassified.Some?)
      ensures forall c :: 0 <= c < |h[a].cells| && c < |h[b].cells| ==> !(h[a].cells[c].Some? && h[b].cells[c].Some?)
    {
      var i := Source(x, m, h, a);
      var k := Source(x, m, h, b);
      DifferentServices(cols, x, tags, i, k);
    }
  }

  /** Two different rows of one month hold different services, so no common cell. */
  lemma DifferentServices(cols: seq<string>, x: seq<Pivot>, tags: seq<string>, i: nat, k: nat)
    requires Tagged(cols, x, tags) && Separated(x, tags)
    requires i < |x| && k < |x| && x[i] != x[k] && x[i].month == x[k].month
    ensures !(x[i].unclassified.Some? && x[k].unclassified.Some?)
    ensures forall c :: 0 <= c < |x[i].cells| && c < |x[k].cells| ==> !(x[i].cells[c].Some? && x[k].cells[c].Some?)
  {
    assert TagOf(cols, x[i], tags[i]) && TagOf(cols, x[k], tags[k]);
    if i < k {
      assert tags[i] != tags[k];
    } else {
      assert tags[k] != tags[i];
    }
  }

  /** The position in `x` of a row of one month's group of the UNION. */
  lemma Source(x: seq<Pivot>, m: Month, h: seq<Pivot>, a: nat) returns (i: nat)
    requires h == WithKey(Distinct(x), MonthOfPivot, m) && a < |h|
    ensures i < |x| && x[i] == h[a] && x[i].month == m
  {
    var u := Distinct(x);
    assert h[a] in h;
    var ia :| 0 <= ia < |u| && u[ia] == h[a];
    assert u[ia] in x;
    i :| 0 <= i < |x| && x[i] == h[a];
  }

  lemma ExclusiveCells(cols: seq<string>, m: Month, h: seq<Pivot>)
    requires Exclusive(h)
    ensures var r := OuterRow(cols, m, h);
      (forall c :: 0 <= c < |cols| ==> |r.cells[c]| <= 1) && |r.unclassified| <= 1
  {
    var r := OuterRow(cols, m, h);
    forall c | 0 <= c < |cols| ensures |r.cells[c]| <= 1 {
      ExclusiveColumn(h, c);
    }
    var s := Map(h, UnclassifiedOf);
    assert forall a, b :: 0 <= a < b < |s| ==> !(s[a].Some? && s[b].Some?);
    NonNullAtMostOne(s);
  }

  lemma ExclusiveColumn(h: seq<Pivot>, c: nat)
    requires Exclusive(h)
    ensures |NonNull(Map(h, CellAt(c)))| <= 1
  {
    var s := Map(h, CellAt(c));
    forall a, b | 0 <= a < b < |s| ensures !(s[a].Some? && s[b].Some?) {
      assert s[a] == CellAt(c)(h[a]) && s[b] == CellAt(c)(h[b]);
    }
    NonNullAtMostOne(s);
  }

  /**
   * Every cell of a KPI row averages at most one rate: within a month a
   * column is set only by the row of its own service, and the '总计' rows
   * are one per service.
   */
  lemma KpiCellsAtMostOne(fork: Fork, cols: seq<string>, ts: seq<Ticket>)
    ensures var r := KpiTable(fork, cols, ts);
      forall j :: 0 <= j < |r| ==>
        (forall c :: 0 <= c < |cols| ==> |r[j].cells[c]| <= 1) && |r[j].unclassified| <= 1
  {
    var infos := InfoRows(fork, ts);
    var x := MonthPivots(cols, infos) + TotalPivots(cols, infos);
    var tags := Map(KeysOf(infos, InnerKeyOf), InnerService) + KeysOf(infos, ServiceOf);
    UnionTagged(cols, infos);
    var u := Union(cols, infos);
    var ms := KeysOf(u, MonthOfPivot);
    var r := KpiTable(fork, cols, ts);
    forall j | 0 <= j < |r|
      ensures (forall c :: 0 <= c < |cols| ==> |r[j].cells[c]| <= 1) && |r[j].unclassified| <= 1
    {
      assert r[j] == OuterRow(cols, ms[j], WithKey(u, MonthOfPivot, ms[j]));
      GroupExclusive(cols, x, tags, ms[j]);
      ExclusiveCells(cols, ms[j], WithKey(u, MonthOfPivot, ms[j]));
    }
  }

  // ---------------------------------------------------------------------
  // Exact totals when every service has a column.

  /** The two counts a row carries: 工单总数 and 已解决. */
  datatype Tally = TicketCount | ResolvedCount

  /** Each ticket's contribution to a count. */
  function TicketTally(fork: Fork, k: Tally): Ticket -> nat
  {
    if k == TicketCount then One else Solved(fork)
  }

  function InfoTally(k: Tally): Info -> nat
  {
    if k == TicketCount then InfoTotal else InfoResolved
  }

  function PivotTally(k: Tally): Pivot -> nat
  {
    if k == TicketCount then PivotTotal else PivotResolved
  }

  /** A UNION row's count as it reaches the month rows: the '总计' rows add nothing. */
  function MonthTally(k: Tally): Pivot -> nat
  {
    (p: Pivot) => if p.month == GrandTotal then 0 else if k == TicketCount then p.total else p.resolved
  }

  function RowTally(k: Tally, r: KpiRow): nat
  {
    if k == TicketCount then r.total else r.resolved
  }

  /** A KPI row's count as it adds up over the month rows: the '总计' row adds nothing. */
  function RowMonthTally(k: Tally): KpiRow -> nat
  {
    (r: KpiRow) => if r.month == GrandTotal then 0 else RowTally(k, r)
  }

  /** A count over all tmp_info rows is the count over the tickets. */
  lemma InfoSums(fork: Fork, ts: seq<Ticket>, k: Tally)
    ensures SumOf(InfoRows(fork, ts), InfoTally(k)) == SumOf(ts, TicketTally(fork, k))
  {
    var ks := KeysOf(ts, InfoKeyOf);
    var infos := InfoRows(fork, ts);
    assert |infos| == |ks|;
    forall j | 0 <= j < |ks|
      ensures InfoTally(k)(infos[j]) == SumOf(WithKey(ts, InfoKeyOf, ks[j]), TicketTally(fork, k))
    {
      assert infos[j] == InfoAt(fork, ts, ks, j);
    }
    SumOfGroups(ks, ts, InfoKeyOf, TicketTally(fork, k), infos, InfoTally(k));
    GroupTotalAll(ks, ts, InfoKeyOf, TicketTally(fork, k));
  }

  /** A count over the monthly half of the UNION is the count over tmp_info. */
  lemma MonthPivotSums(cols: seq<string>, infos: seq<Info>, k: Tally)
    requires forall i :: 0 <= i < |infos| ==> InfoOk(infos[i])
    ensures SumOf(MonthPivots(cols, infos), PivotTally(k)) == SumOf(infos, InfoTally(k))
  {
    var mp := MonthPivots(cols, infos);
    forall j | 0 <= j < |mp|
      ensures PivotTally(k)(mp[j]) == SumOf(WithKey(infos, InnerKeyOf, KeysOf(infos, InnerKeyOf)[j]), InfoTally(k))
    {
      MonthPivotTally(cols, infos, k, j);
    }
    SumByGroups(infos, InnerKeyOf, InfoTally(k), mp, PivotTally(k));
  }

  /** The month row of one (month, service) group counts that group's tmp_info rows. */
  lemma MonthPivotTally(cols: seq<string>, infos: seq<Info>, k: Tally, j: nat)
    requires forall i :: 0 <= i < |infos| ==> InfoOk(infos[i])
    requires j < |KeysOf(infos, InnerKeyOf)|
    ensures j < |MonthPivots(cols, infos)|
    ensures PivotTally(k)(MonthPivots(cols, infos)[j])
         == SumOf(WithKey(infos, InnerKeyOf, KeysOf(infos, InnerKeyOf)[j]), InfoTally(k))
  {
    var ks := KeysOf(infos, InnerKeyOf);
    var p := MonthPivotAt(cols, infos, ks, j);
    assert MonthPivots(cols, infos)[j] == p;
  }

  /** A count over the '总计' half of the UNION is the count over tmp_info. */
  lemma TotalPivotSums(cols: seq<string>, infos: seq<Info>, k: Tally)
    requires forall i :: 0 <= i < |infos| ==> InfoOk(infos[i])
    ensures SumOf(TotalPivots(cols, infos), PivotTally(k)) == SumOf(infos, InfoTally(k))
  {
    var tp := TotalPivots(cols, infos);
    forall j | 0 <= j < |tp|
      ensures PivotTally(k)(tp[j]) == SumOf(WithKey(infos, ServiceOf, KeysOf(infos, ServiceOf)[j]), InfoTally(k))
    {
      TotalPivotTally(cols, infos, k, j);
    }
    SumByGroups(infos, ServiceOf, InfoTally(k), tp, PivotTally(k));
  }

  /** The '总计' row of one service counts that service's tmp_info rows. */
  lemma TotalPivotTally(cols: seq<string>, infos: seq<Info>, k: Tally, j: nat)
    requires forall i :: 0 <= i < |infos| ==> InfoOk(infos[i])
    requires j < |KeysOf(infos, ServiceOf)|
    ensures j < |TotalPivots(cols, infos)|
    ensures PivotTally(k)(TotalPivots(cols, infos)[j])
         == SumOf(WithKey(infos, ServiceOf, KeysOf(infos, ServiceOf)[j]), InfoTally(k))
  {
    var ks := KeysOf(infos, ServiceOf);
    var p := TotalPivotAt(cols, infos, ks, j);
    assert TotalPivots(cols, infos)[j] == p;
  }

  /** Adding up the month rows adds up the UNION rows of the months. */
  lemma OuterMonthSums(cols: seq<string>, u: seq<Pivot>, k: Tally)
    ensures SumOf(OuterRows(cols, u), RowMonthTally(k)) == SumOf(u, MonthTally(k))
  {
    var ms := KeysOf(u, MonthOfPivot);
    var r := OuterRows(cols, u);
    assert |r| == |ms|;
    forall j | 0 <= j < |ms|
      ensures RowMonthTally(k)(r[j]) == SumOf(WithKey(u, MonthOfPivot, ms[j]), MonthTally(k))
    {
      assert r[j] == OuterRow(cols, ms[j], WithKey(u, MonthOfPivot, ms[j]));
      OuterRowTally(cols, u, k, ms[j]);
    }
    SumOfGroups(ms, u, MonthOfPivot, MonthTally(k), r, RowMonthTally(k));
    GroupTotalAll(ms, u, MonthOfPivot, MonthTally(k));
  }

  /** The outer row of one month counts what the UNION rows of that month count; the '总计' row counts nothing here. */
  lemma OuterRowTally(cols: seq<string>, u: seq<Pivot>, k: Tally, m: Month)
    ensures var h := WithKey(u, MonthOfPivot, m);
      RowMonthTally(k)(OuterRow(cols, m, h)) == SumOf(h, MonthTally(k))
  {
    var h := WithKey(u, MonthOfPivot, m);
    assert forall i :: 0 <= i < |h| ==> h[i].month == m by {
      forall i | 0 <= i < |h| ensures h[i].month == m {
        assert h[i] in h;
      }
    }
    if m == GrandTotal {
      SumOfZero(h, MonthTally(k));
    } else {
      SumOfCongruent(h, MonthTally(k), PivotTally(k));
    }
  }

  /** A service that has a column of its own or is '未分类' shows up in some cell. */
  predicate HasColumn(cols: seq<string>, s: string)
  {
    s in cols || s == Unclassified
  }

  predicate Covered(cols: seq<string>, tags: seq<string>)
  {
    forall i :: 0 <= i < |tags| ==> HasColumn(cols, tags[i])
  }

  /**
   * Rows of one month and different services differ in the cell of one
   * of the services, so when every service has a column no two rows of
   * the UNION's input are equal.
   */
  lemma TaggedNoDup(cols: seq<string>, x: seq<Pivot>, tags: seq<string>)
    requires Tagged(cols, x, tags) && Separated(x, tags) && Covered(cols, tags)
    ensures NoDup(x)
  {
    forall i, j | 0 <= i < j < |x| ensures x[i] != x[j] {
      if x[i].month == x[j].month {
        assert tags[i] != tags[j];
        assert TagOf(cols, x[i], tags[i]) && TagOf(cols, x[j], tags[j]);
        if tags[i] in cols {
          var c :| 0 <= c < |cols| && cols[c] == tags[i];
          assert x[i].cells[c].Some? && x[j].cells[c].None?;
        } else {
          assert x[i].unclassified.Some? && x[j].unclassified.None?;
        }
      }
    }
  }

  /** Each tmp_info row's service is the pivot key of its tickets, so it has a column when theirs do. */
  lemma InfoServicesCovered(fork: Fork, cols: seq<string>, ts: seq<Ticket>)
    requires forall i :: 0 <= i < |ts| ==> HasColumn(cols, PivotKey(ts[i]))
    ensures var infos := InfoRows(fork, ts);
      forall j :: 0 <= j < |infos| ==> HasColumn(cols, infos[j].service)
  {
    var ks := KeysOf(ts, InfoKeyOf);
    var infos := InfoRows(fork, ts);
    assert forall i :: 0 <= i < |ts| ==> ServiceName(InfoKeyOf(ts[i])) == PivotKey(ts[i]);
    KeysOfAll(ts, InfoKeyOf, (k: InfoKey) => HasColumn(cols, ServiceName(k)));
    forall j | 0 <= j < |infos| ensures HasColumn(cols, infos[j].service) {
      assert infos[j] == InfoAt(fork, ts, ks, j);
    }
  }

  /** The services of the UNION's rows are those of tmp_info rows. */
  lemma UnionTagsCovered(cols: seq<string>, infos: seq<Info>)
    requires forall i :: 0 <= i < |infos| ==> HasColumn(cols, infos[i].service)
    ensures Covered(cols, Map(KeysOf(infos, InnerKeyOf), InnerService) + KeysOf(infos, ServiceOf))
  {
    var ks, ss := KeysOf(infos, InnerKeyOf), KeysOf(infos, ServiceOf);
    var ms := Map(ks, InnerService);
    KeysOfAll(infos, InnerKeyOf, (k: InnerKey) => HasColumn(cols, InnerService(k)));
    KeysOfAll(infos, ServiceOf, (s: string) => HasColumn(cols, s));
    assert Covered(cols, ms) && Covered(cols, ss);
    var tags := ms + ss;
    forall n | 0 <= n < |tags| ensures HasColumn(cols, tags[n]) {
      if n >= |ms| {
        assert tags[n] == ss[n - |ms|];
      }
    }
  }

  /** When every ticket's pivot key has a column or is '未分类', the UNION removes no row. */
  lemma UnionKeepsAll(fork: Fork, cols: seq<string>, ts: seq<Ticket>)
    requires forall i :: 0 <= i < |ts| ==> HasColumn(cols, PivotKey(ts[i]))
    ensures var infos := InfoRows(fork, ts);
      Union(cols, infos) == MonthPivots(cols, infos) + TotalPivots(cols, infos)
  {
    var infos := InfoRows(fork, ts);
    var x := MonthPivots(cols, infos) + TotalPivots(cols, infos);
    var tags := Map(KeysOf(infos, InnerKeyOf), InnerService) + KeysOf(infos, ServiceOf);
    UnionTagged(cols, infos);
    InfoServicesCovered(fork, cols, ts);
    UnionTagsCovered(cols, infos);
    TaggedNoDup(cols, x, tags);
    DistinctOfNoDup(x);
  }

  /** With no row lost, the month rows add up to the tickets in scope. */
  lemma MonthRowsExact(fork: Fork, cols: seq<string>, ts: seq<Ticket>, k: Tally)
    requires forall i :: 0 <= i < |ts| ==> HasColumn(cols, PivotKey(ts[i]))
    ensures SumOf(KpiTable(fork, cols, ts), RowMonthTally(k)) == SumOf(ts, TicketTally(fork, k))
  {
    var infos := InfoRows(fork, ts);
    var mp, tp := MonthPivots(cols, infos), TotalPivots(cols, infos);
    UnionKeepsAll(fork, cols, ts);
    OuterMonthSums(cols, mp + tp, k);
    SumOfAppend(mp, tp, MonthTally(k));
    MonthPivotsTagged(cols, infos);
    TotalPivotsTagged(cols, infos);
    SumOfCongruent(mp, MonthTally(k), PivotTally(k));
    SumOfZero(tp, MonthTally(k));
    MonthPivotSums(cols, infos, k);
    InfoSums(fork, ts, k);
  }

  /** In the UNION's input, the '总计' group is exactly the per-service total rows. */
  lemma GrandGroup(cols: seq<string>, infos: seq<Info>)
    requires forall i :: 0 <= i < |infos| ==> InfoOk(infos[i])
    ensures var tp := TotalPivots(cols, infos);
      WithKey(MonthPivots(cols, infos) + tp, MonthOfPivot, GrandTotal) == tp
  {
    var mp, tp := MonthPivots(cols, infos), TotalPivots(cols, infos);
    MonthPivotsTagged(cols, infos);
    TotalPivotsTagged(cols, infos);
    WithKeyAppend(mp, tp, MonthOfPivot, GrandTotal);
    WithKeyNone(mp, MonthOfPivot, GrandTotal);
    WithKeyAll(tp, MonthOfPivot, GrandTotal);
  }

  /** Some ticket in scope gives a per-service total row. */
  lemma GrandGroupNonEmpty(fork: Fork, cols: seq<string>, ts: seq<Ticket>)
    requires ts != []
    ensures TotalPivots(cols, InfoRows(fork, ts)) != []
  {
    var infos := InfoRows(fork, ts);
    assert InfoKeyOf(ts[0]) in KeysOf(ts, InfoKeyOf);
    assert ServiceOf(infos[0]) in KeysOf(infos, ServiceOf);
  }

  /** Whatever the columns, a ticket in scope gives the table a '总计' row. */
  lemma GrandRowPresent(fork: Fork, cols: seq<string>, ts: seq<Ticket>)
    requires ts != []
    ensures var r := KpiTable(fork, cols, ts);
      exists j :: 0 <= j < |r| && r[j].month == GrandTotal
  {
    var infos := InfoRows(fork, ts);
    GrandGroupNonEmpty(fork, cols, ts);
    var i := GrandPivotIndex(cols, infos);
    var j := OuterRowIndex(cols, Union(cols, infos), i);
    assert KpiTable(fork, cols, ts)[j].month == GrandTotal;
  }

  /** When some service has tickets, the UNION holds a '总计' row. */
  lemma GrandPivotIndex(cols: seq<string>, infos: seq<Info>) returns (i: nat)
    requires forall i :: 0 <= i < |infos| ==> InfoOk(infos[i])
    requires TotalPivots(cols, infos) != []
    ensures i < |Union(cols, infos)| && Union(cols, infos)[i].month == GrandTotal
  {
    var tp := TotalPivots(cols, infos);
    var x := MonthPivots(cols, infos) + tp;
    TotalPivotsTagged(cols, infos);
    assert x[|x| - 1] == tp[|tp| - 1];
    assert x[|x| - 1] in Union(cols, infos);
    i :| 0 <= i < |Union(cols, infos)| && Union(cols, infos)[i] == x[|x| - 1];
  }

  /** The outer row of month `m` is the one built from the group of `m`. */
  lemma OuterRowOf(cols: seq<string>, u: seq<Pivot>, m: Month)
    ensures var r := OuterRows(cols, u);
      forall j :: 0 <= j < |r| && r[j].month == m ==> r[j] == OuterRow(cols, m, WithKey(u, MonthOfPivot, m))
  {
    var ms := KeysOf(u, MonthOfPivot);
    var r := OuterRows(cols, u);
    forall j | 0 <= j < |r| && r[j].month == m ensures r[j] == OuterRow(cols, m, WithKey(u, MonthOfPivot, m)) {
      assert r[j] == OuterRow(cols, ms[j], WithKey(u, MonthOfPivot, ms[j]));
    }
  }

  /** Every month of a UNION row has its outer row. */
  lemma OuterRowIndex(cols: seq<string>, u: seq<Pivot>, i: nat) returns (j: nat)
    requires i < |u|
    ensures j < |OuterRows(cols, u)| && OuterRows(cols, u)[j].month == u[i].month
  {
    var ms := KeysOf(u, MonthOfPivot);
    assert MonthOfPivot(u[i]) in ms;
    j :| j < |ms| && ms[j] == u[i].month;
  }

  /** An outer row's count is the sum of its group's counts. */
  lemma RowTallyOf(cols: seq<string>, m: Month, h: seq<Pivot>, k: Tally)
    ensures RowTally(k, OuterRow(cols, m, h)) == SumOf(h, PivotTally(k))
  {
    if k == TicketCount {
      assert PivotTally(k) == PivotTotal;
    } else {
      assert PivotTally(k) == PivotResolved;
    }
  }

  /** With no row lost, the '总计' row adds up to the tickets in scope. */
  lemma GrandRowExact(fork: Fork, cols: seq<string>, ts: seq<Ticket>, k: Tally)
    requires forall i :: 0 <= i < |ts| ==> HasColumn(cols, PivotKey(ts[i]))
    ensures var r := KpiTable(fork, cols, ts);
      forall j :: 0 <= j < |r| && r[j].month == GrandTotal ==> RowTally(k, r[j]) == SumOf(ts, TicketTally(fork, k))
  {
    var infos := InfoRows(fork, ts);
    var tp := TotalPivots(cols, infos);
    var x := MonthPivots(cols, infos) + tp;
    UnionKeepsAll(fork, cols, ts);
    GrandGroup(cols, infos);
    TotalPivotSums(cols, infos, k);
    InfoSums(fork, ts, k);
    OuterRowOf(cols, x, GrandTotal);
    RowTallyOf(cols, GrandTotal, tp, k);
  }

  /**
   * The KPI rows `r` count the tickets `ts` exactly: the month rows'
   * 工单总数 add up to the tickets and their 已解决 to the tickets the KPI
   * counts as resolved, and the '总计' row, which is there as soon as one
   * ticket is, carries the same two numbers.
   */
  predicate CountsExactly(fork: Fork, ts: seq<Ticket>, r: seq<KpiRow>)
  {
    && SumOf(r, RowMonthTally(TicketCount)) == |ts|
    && SumOf(r, RowMonthTally(ResolvedCount)) == |ts| - Count(ts, Unsolved(fork))
    && (forall j :: 0 <= j < |r| && r[j].month == GrandTotal ==>
          r[j].total == |ts| && r[j].resolved == |ts| - Count(ts, Unsolved(fork)))
    && (ts != [] ==> exists j :: 0 <= j < |r| && r[j].month == GrandTotal)
  }

  /** When every ticket's pivot key has a column or is '未分类', the table counts the tickets exactly. */
  lemma KpiTotalsExact(fork: Fork, cols: seq<string>, ts: seq<Ticket>)
    requires forall i :: 0 <= i < |ts| ==> HasColumn(cols, PivotKey(ts[i]))
    ensures CountsExactly(fork, ts, KpiTable(fork, cols, ts))
  {
    MonthRowsExact(fork, cols, ts, TicketCount);
    MonthRowsExact(fork, cols, ts, ResolvedCount);
    GrandRowExact(fork, cols, ts, TicketCount);
    GrandRowExact(fork, cols, ts, ResolvedCount);
    assert TicketTally(fork, TicketCount) == One;
    assert TicketTally(fork, ResolvedCount) == Solved(fork);
    SumOfOne(ts);
    CountComplement(ts, Unsolved(fork), Solved(fork));
    if ts != [] {
      GrandRowPresent(fork, cols, ts);
    }
  }

  // ---------------------------------------------------------------------
  // Discovery by the pivot key.

  /** The discovery query with the pivot query's own key, COALESCE(s2.name, COALESCE(s.name, '未分类')), on both sides. */
  function CorrectedDiscover(side: Side, rows: seq<Ticket>, start: Date, end: Date): (r: seq<string>)
    ensures NoDup(r)
    ensures forall x :: x in r <==> exists t :: t in rows && KpiScope(side, start, end)(t) && PivotKey(t) == x
  {
    KeysOfScope(rows, KpiScope(side, start, end), PivotKey);
    KeysOf(Filter(rows, KpiScope(side, start, end)), PivotKey)
  }

  /** The KPI table built on CorrectedDiscover. */
  function CorrectedKpiStats(fork: Fork, side: Side, rows: seq<Ticket>, start: Date, end: Date): (r: seq<KpiRow>)
  {
    KpiTable(fork, Columns(CorrectedDiscover(side, rows, start, end)), Filter(rows, KpiScope(side, start, end)))
  }

  /** Outside the Latest infrastructure table the source already discovers by the pivot key. */
  lemma KpiStatsAgree(fork: Fork, side: Side, rows: seq<Ticket>, start: Date, end: Date)
    requires !(fork == Latest && side == Infra)
    ensures KpiStats(fork, side, rows, start, end) == CorrectedKpiStats(fork, side, rows, start, end)
  {
    assert DiscoveryKey(fork, side) == PivotKey;
  }

  /** With discovery by the pivot key, every ticket in scope has a column or is '未分类'. */
  lemma CorrectedColumnsCover(side: Side, rows: seq<Ticket>, start: Date, end: Date)
    ensures var ts := Filter(rows, KpiScope(side, start, end));
      forall i :: 0 <= i < |ts| ==> HasColumn(Columns(CorrectedDiscover(side, rows, start, end)), PivotKey(ts[i]))
  {
    var scope := KpiScope(side, start, end);
    var ts := Filter(rows, scope);
    var names := CorrectedDiscover(side, rows, start, end);
    var cols := Columns(names);
    forall i | 0 <= i < |ts| ensures HasColumn(cols, PivotKey(ts[i])) {
      var t := ts[i];
      assert t in ts;
      assert t in rows && scope(t);
      assert PivotKey(t) in names;
    }
  }

  /**
   * With discovery by the pivot key every ticket in scope is counted once
   * in the month rows and once in the '总计' row.
   */
  lemma CorrectedKpiExact(fork: Fork, side: Side, rows: seq<Ticket>, start: Date, end: Date)
    ensures CountsExactly(fork, Filter(rows, KpiScope(side, start, end)), CorrectedKpiStats(fork, side, rows, start, end))
  {
    var ts := Filter(rows, KpiScope(side, start, end));
    var cols := Columns(CorrectedDiscover(side, rows, start, end));
    CorrectedColumnsCover(side, rows, start, end);
    KpiTotalsExact(fork, cols, ts);
  }
}
