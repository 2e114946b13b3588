/**
 * A period in which the Latest infrastructure KPI table loses a ticket:
 * two resolved requests of one month under the parent service '网络',
 * with the sub-services 'A' and 'B'.
 */
module KpiFinding {
  import opened Wrappers
  import opened Seqs
  import opened Calendar
  import opened Tickets
  import opened Text
  import opened Measures
  import opened Kpi

  const Network := "网络"
  const Start := Date(2025, 1, 1)
  const End := Date(2025, 2, 1)
  const ExampleMonth := MonthIndex(Date(2025, 1, 10))

  /** A closed request opened on 2025-01-10 under '网络' / `sub`. */
  function ExampleTicket(sub: string): Ticket
  {
    Ticket("R-" + sub, "", UserRequest, "closed", DateTime(Date(2025, 1, 10), 0), None, None, None, None, None,
      Sla(None, None, None, None, None, None, None, None, None, None, None, None, None), Some(Network), Some(sub))
  }

  function ExampleRows(): seq<Ticket>
  {
    [ExampleTicket("A"), ExampleTicket("B")]
  }

  // Two-row groupings.

  lemma KeysOfTwo<T, K>(a: T, b: T, key: T -> K)
    requires key(a) != key(b)
    ensures KeysOf([a, b], key) == [key(a), key(b)]
    ensures WithKey([a, b], key, key(a)) == [a] && WithKey([a, b], key, key(b)) == [b]
  {
    assert [a, b][..1] == [a];
    assert [a][..0] == [];
    assert [key(a), key(b)][..1] == [key(a)];
    assert [key(a)][..0] == [];
    assert Map([a, b], key) == [key(a), key(b)];
  }

  lemma KeysOfSame<T, K>(a: T, b: T, key: T -> K)
    requires key(a) == key(b)
    ensures KeysOf([a, b], key) == [key(a)]
  {
    assert [a, b][..1] == [a];
    assert [a][..0] == [];
    assert [key(a), key(a)][..1] == [key(a)];
    assert [key(a)][..0] == [];
    assert Map([a, b], key) == [key(a), key(a)];
  }

  lemma ExampleScope()
    ensures Filter(ExampleRows(), KpiScope(Infra, Start, End)) == ExampleRows()
  {
    var rows := ExampleRows();
    var p := KpiScope(Infra, Start, End);
    assert p(rows[0]) && p(rows[1]);
    assert rows[..1] == [rows[0]];
    assert rows[..0] == [];
  }

  /** The Latest discovery finds the parent '网络' only. */
  lemma ExampleColumns()
    ensures Columns(Discover(Latest, Infra, ExampleRows(), Start, End)) == [Network]
  {
    var rows := ExampleRows();
    ExampleScope();
    assert DiscoveryKey(Latest, Infra) == ParentFirstKey;
    KeysOfSame(rows[0], rows[1], ParentFirstKey);
    assert [Network][..0] == [];
    assert IsColumn(Network);
  }

  lemma OneGroup(t: Ticket, fork: Fork)
    requires !KpiUnresolved(fork, t)
    ensures InfoRow(fork, InfoKeyOf(t), [t]) == Info(MonthIndex(t.start.date), PivotKey(t), 1, 1, RateText(1, 1))
  {
    assert [t][..0] == [];
  }

  function SingleInfo(t: Ticket): Info
  {
    Info(MonthIndex(t.start.date), PivotKey(t), 1, 1, RateText(1, 1))
  }

  lemma InfoRowAt(fork: Fork, a: Ticket, b: Ticket, j: nat)
    requires InfoKeyOf(a) != InfoKeyOf(b) && !KpiUnresolved(fork, a) && !KpiUnresolved(fork, b)
    requires j < 2
    ensures var infos := InfoRows(fork, [a, b]);
      |infos| == 2 && infos[j] == SingleInfo([a, b][j])
  {
    var ks := KeysOf([a, b], InfoKeyOf);
    var t := [a, b][j];
    KeysOfTwo(a, b, InfoKeyOf);
    assert ks[j] == InfoKeyOf(t) && WithKey([a, b], InfoKeyOf, ks[j]) == [t];
    assert InfoRows(fork, [a, b])[j] == InfoAt(fork, [a, b], ks, j) == InfoRow(fork, InfoKeyOf(t), [t]);
    OneGroup(t, fork);
  }

  /** Two resolved tickets of different tmp_info groups give one tmp_info row each. */
  lemma InfoRowsOfTwo(fork: Fork, a: Ticket, b: Ticket)
    requires InfoKeyOf(a) != InfoKeyOf(b) && !KpiUnresolved(fork, a) && !KpiUnresolved(fork, b)
    ensures InfoRows(fork, [a, b]) == [SingleInfo(a), SingleInfo(b)]
  {
    InfoRowAt(fork, a, b, 0);
    InfoRowAt(fork, a, b, 1);
    PairOf(InfoRows(fork, [a, b]), SingleInfo(a), SingleInfo(b));
  }

  lemma PairOf<T>(s: seq<T>, x: T, y: T)
    requires |s| == 2 && s[0] == x && s[1] == y
    ensures s == [x, y]
  {
  }

  /** tmp_info holds one row per sub-service. */
  lemma ExampleInfos()
    ensures InfoRows(Latest, ExampleRows()) == [ExampleInfo("A"), ExampleInfo("B")]
  {
    SingleExampleInfo("A");
    SingleExampleInfo("B");
    var rows := ExampleRows();
    assert InfoKeyOf(rows[0]) != InfoKeyOf(rows[1]);
    assert !KpiUnresolved(Latest, rows[0]) && !KpiUnresolved(Latest, rows[1]);
    InfoRowsOfTwo(Latest, rows[0], rows[1]);
  }

  /** A UNION row with no cell set: the row of a service that has no column. */
  function Blank(m: Month, cols: seq<string>): Pivot
  {
    Pivot(m, seq(|cols|, c requires 0 <= c < |cols| => None), None, 1, 1)
  }

  /** Two services of one month without columns, one resolved ticket each. */
  predicate Uncovered(cols: seq<string>, ia: Info, ib: Info)
  {
    && ia.month == ib.month && ia.service != ib.service
    && !HasColumn(cols, ia.service) && !HasColumn(cols, ib.service)
    && ia.total == ib.total == ia.resolved == ib.resolved == 1
    && ia.rate == ib.rate && ia.rate.Some?
  }

  lemma BlankCells(cols: seq<string>, s: string, rate: Option<string>)
    requires s !in cols
    ensures Cells(cols, s, rate) == Blank(GrandTotal, cols).cells
  {
  }

  lemma MonthPivotOne(cols: seq<string>, i: Info)
    requires !HasColumn(cols, i.service) && i.total == i.resolved == 1 && i.rate.Some?
    ensures MonthPivot(cols, InnerKeyOf(i), [i]) == Blank(MonthOf(i.month), cols)
  {
    SumOfSingle(i, InfoTotal);
    SumOfSingle(i, InfoResolved);
    BlankCells(cols, i.service, i.rate);
  }

  lemma TotalPivotOne(cols: seq<string>, i: Info)
    requires !HasColumn(cols, i.service) && i.total == i.resolved == 1 && i.rate.Some?
    ensures TotalPivot(cols, i.service, [i]) == Blank(GrandTotal, cols)
  {
    SumOfSingle(i, InfoTotal);
    SumOfSingle(i, InfoResolved);
    BlankCells(cols, i.service, RateText(1, 1));
  }

  lemma MonthPivotAtTwo(cols: seq<string>, ia: Info, ib: Info, j: nat)
    requires Uncovered(cols, ia, ib) && j < 2
    ensures var mp := MonthPivots(cols, [ia, ib]);
      |mp| == 2 && mp[j] == Blank(MonthOf(ia.month), cols)
  {
    var ks := KeysOf([ia, ib], InnerKeyOf);
    var i := [ia, ib][j];
    KeysOfTwo(ia, ib, InnerKeyOf);
    assert ks[j] == InnerKeyOf(i) && WithKey([ia, ib], InnerKeyOf, ks[j]) == [i];
    assert MonthPivots(cols, [ia, ib])[j] == MonthPivotAt(cols, [ia, ib], ks, j) == MonthPivot(cols, InnerKeyOf(i), [i]);
    MonthPivotOne(cols, i);
  }

  lemma MonthPivotsOfTwo(cols: seq<string>, ia: Info, ib: Info)
    requires Uncovered(cols, ia, ib)
    ensures MonthPivots(cols, [ia, ib]) == [Blank(MonthOf(ia.month), cols), Blank(MonthOf(ia.month), cols)]
  {
    MonthPivotAtTwo(cols, ia, ib, 0);
    MonthPivotAtTwo(cols, ia, ib, 1);
    PairOf(MonthPivots(cols, [ia, ib]), Blank(MonthOf(ia.month), cols), Blank(MonthOf(ia.month), cols));
  }

  lemma TotalPivotAtTwo(cols: seq<string>, ia: Info, ib: Info, j: nat)
    requires Uncovered(cols, ia, ib) && j < 2
    ensures var tp := TotalPivots(cols, [ia, ib]);
      |tp| == 2 && tp[j] == Blank(GrandTotal, cols)
  {
    var ks := KeysOf([ia, ib], ServiceOf);
    var i := [ia, ib][j];
    KeysOfTwo(ia, ib, ServiceOf);
    assert ks[j] == i.service && WithKey([ia, ib], ServiceOf, ks[j]) == [i];
    assert TotalPivots(cols, [ia, ib])[j] == TotalPivotAt(cols, [ia, ib], ks, j) == TotalPivot(cols, i.service, [i]);
    TotalPivotOne(cols, i);
  }

  lemma TotalPivotsOfTwo(cols: seq<string>, ia: Info, ib: Info)
    requires Uncovered(cols, ia, ib)
    ensures TotalPivots(cols, [ia, ib]) == [Blank(GrandTotal, cols), Blank(GrandTotal, cols)]
  {
    TotalPivotAtTwo(cols, ia, ib, 0);
    TotalPivotAtTwo(cols, ia, ib, 1);
    PairOf(TotalPivots(cols, [ia, ib]), Blank(GrandTotal, cols), Blank(GrandTotal, cols));
  }

  lemma DistinctPairs<T>(p: T, q: T)
    requires p != q
    ensures Distinct([p, p, q, q]) == [p, q]
  {
    assert [p][..0] == [];
    assert Distinct([p]) == [p];
    assert [p, p][..1] == [p];
    assert Distinct([p, p]) == [p];
    assert [p, p, q][..2] == [p, p];
    assert Distinct([p, p, q]) == [p, q];
    assert [p, p, q, q][..3] == [p, p, q];
  }

  /** The UNION merges the two services' rows into one month row and one '总计' row. */
  lemma UnionOfTwo(cols: seq<string>, ia: Info, ib: Info)
    requires Uncovered(cols, ia, ib)
    ensures Union(cols, [ia, ib]) == [Blank(MonthOf(ia.month), cols), Blank(GrandTotal, cols)]
  {
    MonthPivotsOfTwo(cols, ia, ib);
    TotalPivotsOfTwo(cols, ia, ib);
    var p, q := Blank(MonthOf(ia.month), cols), Blank(GrandTotal, cols);
    assert [p, p] + [q, q] == [p, p, q, q];
    DistinctPairs(p, q);
  }

  lemma OuterRowAtTwo(cols: seq<string>, m: int, j: nat)
    requires j < 2
    ensures var u := [Blank(MonthOf(m), cols), Blank(GrandTotal, cols)];
      var r := OuterRows(cols, u);
      |r| == 2 && r[j].month == u[j].month && r[j].total == 1
  {
    var u := [Blank(MonthOf(m), cols), Blank(GrandTotal, cols)];
    var p := u[j];
    var ks := KeysOf(u, MonthOfPivot);
    KeysOfTwo(u[0], u[1], MonthOfPivot);
    assert ks[j] == p.month && WithKey(u, MonthOfPivot, ks[j]) == [p];
    assert OuterRows(cols, u)[j] == OuterRow(cols, p.month, [p]);
    SumOfSingle(p, PivotTotal);
  }

  /** The outer query over the two merged rows: one month row and one '总计' row, each counting one ticket. */
  lemma OuterOfTwo(cols: seq<string>, m: int)
    ensures var r := OuterRows(cols, [Blank(MonthOf(m), cols), Blank(GrandTotal, cols)]);
      && SumOf(r, RowMonthTally(TicketCount)) == 1
      && forall j :: 0 <= j < |r| && r[j].month == GrandTotal ==> r[j].total == 1
  {
    OuterRowAtTwo(cols, m, 0);
    OuterRowAtTwo(cols, m, 1);
    TallyOfTwo(OuterRows(cols, [Blank(MonthOf(m), cols), Blank(GrandTotal, cols)]));
  }

  lemma TallyOfTwo(r: seq<KpiRow>)
    requires |r| == 2 && r[0].month != GrandTotal && r[0].total == 1 && r[1].month == GrandTotal
    ensures SumOf(r, RowMonthTally(TicketCount)) == 1
  {
    SumOfPair(r, RowMonthTally(TicketCount));
  }

  lemma SumOfPair<T>(s: seq<T>, w: T -> nat)
    requires |s| == 2
    ensures SumOf(s, w) == w(s[0]) + w(s[1])
  {
    var p := s[..1];
    assert p[..0] == [];
    assert SumOf(p, w) == w(s[0]);
  }

  /** The Latest infrastructure table of the example, step by step. */
  lemma ExampleTable()
    ensures var cols := [Network];
      KpiStats(Latest, Infra, ExampleRows(), Start, End)
        == OuterRows(cols, [Blank(MonthOf(ExampleMonth), cols), Blank(GrandTotal, cols)])
  {
    var rows := ExampleRows();
    var ts := Filter(rows, KpiScope(Infra, Start, End));
    var cols := Columns(Discover(Latest, Infra, rows, Start, End));
    var ia, ib := ExampleInfo("A"), ExampleInfo("B");
    ExampleScope();
    ExampleColumns();
    ExampleInfos();
    assert InfoRows(Latest, ts) == [ia, ib];
    ExampleUncovered();
    UnionOfTwo([Network], ia, ib);
    assert KpiStats(Latest, Infra, rows, Start, End) == KpiTable(Latest, cols, ts)
      == OuterRows(cols, Union(cols, InfoRows(Latest, ts)));
  }

  lemma ExampleUncovered()
    ensures Uncovered([Network], ExampleInfo("A"), ExampleInfo("B"))
  {
    assert !HasColumn([Network], "A") && !HasColumn([Network], "B") && "A" != "B";
    UncoveredPair([Network], ExampleMonth, "A", "B", RateText(1, 1));
  }

  lemma UncoveredPair(cols: seq<string>, month: int, a: string, b: string, rate: Option<string>)
    requires !HasColumn(cols, a) && !HasColumn(cols, b) && a != b && rate.Some?
    ensures Uncovered(cols, Info(month, a, 1, 1, rate), Info(month, b, 1, 1, rate))
  {
  }

  /** The tmp_info row of the example ticket under `sub`. */
  function ExampleInfo(sub: string): Info
  {
    Info(ExampleMonth, sub, 1, 1, RateText(1, 1))
  }

  lemma SingleExampleInfo(sub: string)
    ensures SingleInfo(ExampleTicket(sub)) == ExampleInfo(sub)
  {
  }

  /**
   * Two tickets are in scope, but the Latest infrastructure table counts
   * one in its month rows and one in its '总计' row; the table built on
   * the pivot key counts both.
   */
  lemma LatestInfraUndercounts()
    ensures var ts := Filter(ExampleRows(), KpiScope(Infra, Start, End));
      var r := KpiStats(Latest, Infra, ExampleRows(), Start, End);
      && |ts| == 2
      && SumOf(r, RowMonthTally(TicketCount)) == 1
      && (forall j :: 0 <= j < |r| && r[j].month == GrandTotal ==> r[j].total == 1)
      && SumOf(CorrectedKpiStats(Latest, Infra, ExampleRows(), Start, End), RowMonthTally(TicketCount)) == 2
  {
    ExampleScope();
    ExampleTable();
    OuterOfTwo([Network], ExampleMonth);
    CorrectedKpiExact(Latest, Infra, ExampleRows(), Start, End);
  }
}
