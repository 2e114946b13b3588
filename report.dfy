/**
 * generate_pdf of the Latest renderer: the list of flowables (the story)
 * of the monthly report, built by appending paragraphs, spacers, charts
 * and tables one after another. Any exception on the way makes the whole
 * call return None. Every table goes through _create_data_table, which
 * decodes byte strings, so tables are built with decoding on.
 */
module Report {
  import opened Wrappers
  import opened Seqs
  import opened Text
  import opened Calendar
  import opened Tickets
  import opened StatusStats
  import opened Render
  import opened Trend
  import opened DataTables

  datatype Style = TitleStyle | Subtitle | Normal

  /** A flowable of the story, with what the report shows of it. */
  datatype Element =
    | Paragraph(style: Style, text: string)
    | Spacer
    | PieChart(title: string, slices: seq<string>)
    | LineChart(categories: seq<string>, values: seq<seq<Option<nat>>>, labels: seq<seq<string>>, lines: seq<LineStyle>)
    | Table(texts: seq<seq<string>>)

  /** A query result: column names and rows of cells. */
  datatype Frame = Frame(columns: seq<string>, rows: seq<seq<Cell>>)

  predicate WellShaped(f: Frame)
  {
    forall i :: 0 <= i < |f.rows| ==> |f.rows[i]| == |f.columns|
  }

  /** The header row: every column name as a text cell. */
  function Header(columns: seq<string>): (r: seq<Cell>)
    ensures |r| == |columns|
  {
    if columns == [] then [] else Header(columns[..|columns| - 1]) + [Str(columns[|columns| - 1])]
  }

  /** [frame.columns.tolist()] + frame.values.tolist(): the header row, then the rows. */
  function TableData(f: Frame): (d: seq<seq<Cell>>)
    requires WellShaped(f)
    ensures Rectangular(d)
  {
    [Header(f.columns)] + f.rows
  }

  /** The table of a frame shows the column names on its first row and each row's cells below, in order. */
  lemma TableShowsFrame(f: Frame)
    requires WellShaped(f)
    ensures var texts := TableTexts(true, TableData(f));
      && |texts| == |f.rows| + 1
      && texts[0] == f.columns
      && forall i, j :: 0 <= i < |f.rows| && 0 <= j < |f.columns| ==> texts[i + 1][j] == CellText(true, f.rows[i][j])
  {
    HeaderNames(f.columns);
  }

  lemma {:induction false} HeaderNames(columns: seq<string>)
    ensures forall j :: 0 <= j < |columns| ==> Header(columns)[j] == Str(columns[j])
  {
    if columns != [] {
      HeaderNames(columns[..|columns| - 1]);
    }
  }

  /** The position of the first column called `name`; None is a KeyError. */
  function ColumnIndex(columns: seq<string>, name: string): (r: Option<nat>)
    ensures r.None? <==> name !in columns
    ensures r.Some? ==> r.value < |columns| && columns[r.value] == name
  {
    if columns == [] then None
    else if columns[0] == name then Some(0)
    else
      match ColumnIndex(columns[1..], name)
      case None => None
      case Some(k) => Some(k + 1)
  }

  // ---------------------------------------------------------------------
  // Section 1: the status paragraphs and pies.

  /**
   * The single row of a status query as the query produces it: the sums
   * are present exactly when some ticket is counted, resolved and
   * unresolved make up the total and closed is part of resolved.
   */
  predicate Consistent(b: Breakdown)
  {
    && (b.total == 0 <==> b.resolved.None?)
    && b.closed.None? == b.resolved.None? == b.unresolved.None?
    && (b.total > 0 ==> b.resolved.value + b.unresolved.value == b.total && b.closed.value <= b.resolved.value)
  }

  /** Every status query's row is consistent. */
  lemma BreakdownConsistent(cls: TicketClass, rows: seq<Ticket>, start: Date, end: Date)
    ensures Consistent(StatusBreakdown(cls, rows, start, end))
  {
  }

  /** '{n:g}' of a count. */
  function CountText(n: nat): string
  {
    NatToString(n)
  }

  datatype Topic = Requests | Incidents

  function Noun(topic: Topic): string
  {
    if topic == Requests then "服务请求" else "事件"
  }

  function Heading(topic: Topic): string
  {
    if topic == Requests then "1) 服务请求统计" else "2) 事件统计"
  }

  /** The three sentences of a request or incident paragraph, with the shares as '.2f' percentages. */
  function ShareSentences(topic: Topic, b: Breakdown, s: RequestParagraph): (r: seq<Element>)
    requires b.total > 0 && Consistent(b) && s.RequestShares?
    ensures |r| == 3 && forall i :: 0 <= i < 3 ==> r[i].Paragraph? && r[i].style == Normal
  {
    var n := Noun(topic);
    var verb := if topic == Requests then "接收" else "发生";
    [Paragraph(Normal, "本周期内共" + verb + n + " " + CountText(b.total) + " 个，其中 "
                       + CountText(b.resolved.value) + " 个" + n + "被解决，占比约 " + PercentText(s.resolved) + "；"),
     Paragraph(Normal, "已解决的" + n + "中，" + CountText(b.closed.value) + " 个" + n
                       + "被按时关闭，占比约 " + PercentText(s.closed) + "；"),
     Paragraph(Normal, "未解决的" + n + "有 " + CountText(b.unresolved.value) + " 个，占比约 " + PercentText(s.unresolved) + "。")]
  }

  /** The pie labels of the slices [resolved, unresolved, closed]; they always exist once there are tickets. */
  function RequestPie(topic: Topic, b: Breakdown): (e: Element)
    requires b.total > 0 && Consistent(b)
    ensures e.PieChart? && |e.slices| == 3
  {
    var data := [b.resolved.value, b.unresolved.value, b.closed.value];
    TotalOfThree(data[0], data[1], data[2]);
    PieChart(Noun(topic) + "状态分布", Map(PieShares(data).value, PieLabel))
  }

  /**
   * The request (or incident) part of _add_service_request_stats: its
   * heading; then, when the query gave no row, a notice; when the period
   * has no ticket, a notice; otherwise the three sentences of the
   * narrative, spacers and the pie; a spacer last.
   */
  function RequestSection(topic: Topic, stats: Option<Breakdown>): (r: seq<Element>)
    requires stats.Some? ==> Consistent(stats.value)
    ensures |r| >= 3 && r[0] == Paragraph(Subtitle, Heading(topic)) && r[|r| - 1] == Spacer
    ensures r[|r| - 2].PieChart? <==> stats.Some? && stats.value.total > 0
    ensures |r| == 3 <==> !(stats.Some? && stats.value.total > 0)
  {
    if stats.None? || stats.value.total == 0 then
      [Paragraph(Subtitle, Heading(topic)), Notice(topic, stats), Spacer]
    else RequestPart(topic, stats.value)
  }

  /** The part with tickets: the sentences of the narrative, one spacer or two, the pie. */
  function RequestPart(topic: Topic, b: Breakdown): (r: seq<Element>)
    requires b.total > 0 && Consistent(b)
    ensures |r| > 3 && r[0] == Paragraph(Subtitle, Heading(topic)) && r[|r| - 2].PieChart? && r[|r| - 1] == Spacer
  {
    var t := ShareSentences(topic, b, RequestNarrative(b.total, b.resolved.value, b.closed.value, b.unresolved.value));
    var gap := if topic == Requests then [Spacer, Spacer] else [Spacer];
    Framed(Paragraph(Subtitle, Heading(topic)), t, gap, RequestPie(topic, b))
  }

  /** A part with tickets: heading, sentences, spacers, pie, spacer. */
  function Framed(heading: Element, sentences: seq<Element>, gap: seq<Element>, pie: Element): (r: seq<Element>)
    ensures |r| == |sentences| + |gap| + 3 && r[0] == heading && r[|r| - 2] == pie && r[|r| - 1] == Spacer
    ensures r[1..1 + |sentences|] == sentences
  {
    MiddleOfConcat([heading], sentences, gap, [pie, Spacer]);
    [heading] + sentences + gap + [pie, Spacer]
  }

  /** With tickets, the part shows the narrative's sentences and the pie of the breakdown. */
  lemma RequestSectionShows(topic: Topic, b: Breakdown)
    requires b.total > 0 && Consistent(b)
    ensures var s := RequestNarrative(b.total, b.resolved.value, b.closed.value, b.unresolved.value);
      var r := RequestSection(topic, Some(b));
      s.RequestShares? && r[1..4] == ShareSentences(topic, b, s) && r[|r| - 2] == RequestPie(topic, b)
  {
  }

  /** The notice of a request or incident part without tickets: no row from the query, or none in the period. */
  function Notice(topic: Topic, stats: Option<Breakdown>): (e: Element)
    ensures e.Paragraph? && e.style == Normal
  {
    if stats.None? then Paragraph(Normal, "无法获取" + Noun(topic) + "统计数据。")
    else if topic == Requests then Paragraph(Normal, "本周期内没有接收到服务请求。")
    else Paragraph(Normal, "本周期内没有发生事件。")
  }

  /** The change sentences: the closed share of the total, the resolved share of the closed. */
  function ChangeSentences(b: Breakdown, s: ChangeParagraph): (r: seq<Element>)
    requires b.total > 0 && Consistent(b) && s.ChangeShares?
    ensures |r| == 2 && forall i :: 0 <= i < 2 ==> r[i].Paragraph? && r[i].style == Normal
  {
    [Paragraph(Normal, "本周期内共发生变更 " + CountText(b.total) + " 个，其中 " + CountText(b.closed.value)
                       + " 个变更已关闭，占比约 " + PercentText(s.closed) + "。"),
     Paragraph(Normal, "已关闭的变更中，" + CountText(b.resolved.value) + " 个变更被成功执行，占比约 "
                       + PercentText(s.resolved) + "。")]
  }

  /** The change pie: slices [resolved, total - resolved], whose labels make up 100.0% within a tenth. */
  function ChangePie(b: Breakdown): (e: Element)
    requires b.total > 0 && Consistent(b)
    ensures e.PieChart? && |e.slices| == 2
  {
    var data := [b.resolved.value, b.total - b.resolved.value];
    TotalOfTwo(data[0], data[1]);
    PieChart("变更状态分布", Map(PieShares(data).value, PieLabel))
  }

  /** The change part of _add_service_request_stats. */
  function ChangeSection(stats: Option<Breakdown>): (r: seq<Element>)
    requires stats.Some? ==> Consistent(stats.value)
    ensures |r| >= 3 && r[0] == Paragraph(Subtitle, "3) 变更统计") && r[|r| - 1] == Spacer
    ensures r[|r| - 2].PieChart? <==> stats.Some? && stats.value.total > 0
    ensures |r| == 3 <==> !(stats.Some? && stats.value.total > 0)
  {
    if stats.None? then
      [Paragraph(Subtitle, "3) 变更统计"), Paragraph(Normal, "无法获取变更统计数据。"), Spacer]
    else if stats.value.total == 0 then
      [Paragraph(Subtitle, "3) 变更统计"), Paragraph(Normal, "本周期内没有发生变更。"), Spacer]
    else
      var b := stats.value;
      var t := ChangeSentences(b, ChangeNarrative(b.total, b.resolved.value, b.closed.value));
      Framed(Paragraph(Subtitle, "3) 变更统计"), t, [Spacer], ChangePie(b))
  }

  /** With changes, the part shows the narrative's two sentences and the pie of the breakdown. */
  lemma ChangeSectionShows(b: Breakdown)
    requires b.total > 0 && Consistent(b)
    ensures var s := ChangeNarrative(b.total, b.resolved.value, b.closed.value);
      var r := ChangeSection(Some(b));
      s.ChangeShares? && r[1..3] == ChangeSentences(b, s) && r[|r| - 2] == ChangePie(b)
  {
  }

  /** _add_service_request_stats: requests, incidents, changes. */
  function ServiceStats(request: Option<Breakdown>, incident: Option<Breakdown>, change: Option<Breakdown>): seq<Element>
    requires request.Some? ==> Consistent(request.value)
    requires incident.Some? ==> Consistent(incident.value)
    requires change.Some? ==> Consistent(change.value)
  {
    RequestSection(Requests, request) + RequestSection(Incidents, incident) + ChangeSection(change)
  }

  /**
   * Every label of a request pie is a tenth of a percent of at most
   * 100.0, and the closed slice never reads above the resolved one.
   */
  lemma RequestPieBounded(topic: Topic, b: Breakdown)
    requires b.total > 0 && Consistent(b)
    ensures var data := [b.resolved.value, b.unresolved.value, b.closed.value];
      var shares := PieShares(data);
      && shares.Some?
      && RequestPie(topic, b).slices == Map(shares.value, PieLabel)
      && (forall i :: 0 <= i < 3 ==> shares.value[i] <= 1000)
      && shares.value[2] <= shares.value[0]
  {
    var data := [b.resolved.value, b.unresolved.value, b.closed.value];
    TotalOfThree(data[0], data[1], data[2]);
  }

  // ---------------------------------------------------------------------
  // Section 2: the team table and the trend chart.

  /** One row of the team frame as the chart reads it. */
  function TeamRow(row: seq<Cell>, m: nat, t: nat, y: nat, rate: nat): FrameRow
    requires m < |row| && t < |row| && y < |row| && rate < |row|
  {
    FrameRow(StrOf(row[m]), StrOf(row[t]), StrOf(row[y]), Some(StrOf(row[rate])))
  }

  /** Every row of the team frame as the chart reads it, in order. */
  function TeamRows(rows: seq<seq<Cell>>, m: nat, t: nat, y: nat, rate: nat): (r: seq<FrameRow>)
    requires forall i :: 0 <= i < |rows| ==> m < |rows[i]| && t < |rows[i]| && y < |rows[i]| && rate < |rows[i]|
    ensures |r| == |rows|
  {
    if rows == [] then []
    else TeamRows(rows[..|rows| - 1], m, t, y, rate) + [TeamRow(rows[|rows| - 1], m, t, y, rate)]
  }

  /**
   * The service request points of the team frame: None where one of
   * 工单解决率, 工单类型, 月份, 团队 is missing or a rate does not read as
   * a number.
   */
  function TeamPoints(f: Frame): (r: Option<seq<Point>>)
    requires WellShaped(f)
  {
    match (ColumnIndex(f.columns, "工单解决率"), ColumnIndex(f.columns, "工单类型"),
           ColumnIndex(f.columns, "月份"), ColumnIndex(f.columns, "团队"))
    case (Some(rate), Some(y), Some(m), Some(t)) =>
      RequestPoints(TeamRows(f.rows, m, t, y, rate))
    case _ => None
  }

  /** The team part succeeds when the frame is empty, or its rates read and it has no more teams than colours. */
  predicate TeamChartOk(f: Frame)
    requires WellShaped(f)
  {
    f.rows == [] || (TeamPoints(f).Some? && |Teams(TeamPoints(f).value)| <= |Palette(Latest)|)
  }

  /**
   * The trend chart of the points: the sorted months as categories, one
   * line per team with its colour, one value per month, the first rate of
   * the team in that month or None, and its label array.
   */
  ghost predicate TrendChart(points: seq<Point>, e: Element)
  {
    && e.LineChart?
    && e.categories == Months(points)
    && |e.lines| == |e.values| == |Teams(points)| <= |Palette(Latest)|
    && (forall t :: t in Teams(points) <==> exists k :: 0 <= k < |e.lines| && e.lines[k].name == t)
    && (forall k, l :: 0 <= k < l < |e.lines| ==> e.lines[k].name != e.lines[l].name)
    && (forall k :: 0 <= k < |e.lines| ==>
          e.lines[k].width == Width(Latest, k) && e.lines[k].colour == Palette(Latest)[k])
    && (forall k :: 0 <= k < |e.values| ==> |e.values[k]| == |e.categories|)
    && (forall k, j :: 0 <= k < |e.values| && 0 <= j < |e.categories| ==>
          e.values[k][j] == FirstRate(points, e.lines[k].name, e.categories[j]))
    && e.labels == LabelArray(e.values)
  }

  // ---------------------------------------------------------------------
  // Sections 6 and 7: the KPI tables and charts.

  /** The cells of column c, top to bottom: df[name]. */
  function Column(rows: seq<seq<Cell>>, c: nat): (r: seq<Cell>)
    requires forall i :: 0 <= i < |rows| ==> c < |rows[i]|
    ensures |r| == |rows|
  {
    if rows == [] then [] else Column(rows[..|rows| - 1], c) + [rows[|rows| - 1][c]]
  }

  /** float(str(x).rstrip('%')) of one cell; None where it raises. */
  function CellRate(cell: Cell): Option<nat>
  {
    ParseRate(StrOf(cell))
  }

  /** df['KPI总计'] converted with float(str(x).rstrip('%')); None on a missing column or a NULL or unreadable cell. */
  function KpiRates(f: Frame): (r: Option<seq<nat>>)
    requires WellShaped(f)
    ensures r.Some? ==> |r.value| == |f.rows|
  {
    match ColumnIndex(f.columns, "KPI总计")
    case None => None
    case Some(c) => MapAll(Column(f.rows, c), CellRate)
  }

  /** df['月份'].tolist(), each printed with str(). */
  function KpiMonths(f: Frame, m: nat): (r: seq<string>)
    requires WellShaped(f) && m < |f.columns|
    ensures |r| == |f.rows|
  {
    seq(|f.rows|, i requires 0 <= i < |f.rows| => StrOf(f.rows[i][m]))
  }

  predicate KpiChartOk(f: Frame)
    requires WellShaped(f)
  {
    f.rows == [] || (KpiRates(f).Some? && "月份" in f.columns)
  }

  function Present(h: nat): Option<nat>
  {
    Some(h)
  }

  /** The one-line KPI chart: the months as categories, KPI总计 as its only series, every value labelled. */
  ghost predicate KpiChart(f: Frame, e: Element)
    requires WellShaped(f)
  {
    && e.LineChart?
    && KpiRates(f).Some? && "月份" in f.columns
    && var rates := KpiRates(f).value;
    && e.categories == KpiMonths(f, ColumnIndex(f.columns, "月份").value)
    && |e.values| == 1 && |e.values[0]| == |rates|
    && (forall i :: 0 <= i < |rates| ==> e.values[0][i] == Some(rates[i]))
    && e.lines == [LineStyle(Width(Latest, 0), Palette(Latest)[0], "KPI总计")]
    && e.labels == LabelArray(e.values)
  }

  /** A full series has one label per value, each reading back as that value. */
  lemma KpiLabels(rates: seq<nat>)
    ensures var y := [Map(rates, Present)];
      && |LabelArray(y)| == 1 && |LabelArray(y)[0]| == |rates|
      && forall i :: 0 <= i < |rates| ==> ParseRate(LabelArray(y)[0][i]) == Some(rates[i])
  {
    var line := Map(rates, Present);
    LabelsOfFullSeries(line);
  }

  // ---------------------------------------------------------------------
  // Sections 2 to 7 and the whole story.

  /** The team part of a non-empty frame: its table, a subtitle, the trend chart and a spacer. */
  function TeamPart(texts: seq<seq<string>>, chart: Element): (p: seq<Element>)
    ensures |p| == 4 && p[0].Table? && p[2] == chart
  {
    [Table(texts), Paragraph(Subtitle, "各团队服务请求月度解决率趋势"), chart, Spacer]
  }

  /**
   * What _add_team_stats appends: a notice when the frame is empty;
   * otherwise the table of the frame and the trend chart of its service
   * request points.
   */
  ghost predicate TeamLayout(team: Frame, p: seq<Element>)
    requires WellShaped(team)
  {
    if team.rows == [] then p == [Paragraph(Normal, "本周期内没有要处理的工单"), Spacer]
    else
      && TeamPoints(team).Some?
      && |p| == 4 && TrendChart(TeamPoints(team).value, p[2]) && p == TeamPart(TableTexts(true, TableData(team)), p[2])
  }

  /**
   * _add_team_stats: the elements it appends, or None where it raises (a
   * missing column, a rate that is no number, more teams than line
   * colours).
   */
  method TeamStats(team: Frame) returns (more: Option<seq<Element>>)
    requires WellShaped(team)
    ensures more.Some? <==> TeamChartOk(team)
    ensures more.Some? ==> TeamLayout(team, more.value)
  {
    if team.rows == [] {
      return Some([Paragraph(Normal, "本周期内没有要处理的工单"), Spacer]);
    }
    var texts := DataTableTexts(true, TableData(team));
    var chart := TeamChart(team);
    if chart.None? {
      return None;
    }
    return Some(TeamPart(texts, chart.value));
  }

  /**
   * The chart of _add_team_stats: the service request points of the
   * frame, their grid, and the line chart drawn from it; None where the
   * points cannot be read or the teams outnumber the line colours.
   */
  method TeamChart(team: Frame) returns (chart: Option<Element>)
    requires WellShaped(team)
    ensures chart.Some? <==> TeamPoints(team).Some? && |Teams(TeamPoints(team).value)| <= |Palette(Latest)|
    ensures chart.Some? ==> chart.value.LineChart? && TrendChart(TeamPoints(team).value, chart.value)
  {
    var points := TeamPoints(team);
    if points.None? {
      return None;
    }
    var x, lineTypes, y := TeamGrid(points.value);
    var lines := StyleLines(Latest, lineTypes);
    if lines.None? {
      return None;
    }
    ChartOfGrid(points.value, x, lineTypes, y, lines.value);
    return Some(LineChart(x, y, LabelArray(y), lines.value));
  }

  /** The KPI part of a non-empty frame: its title, its table, a subtitle, the KPI chart and a spacer. */
  function KpiPart(title: string, texts: seq<seq<string>>, chart: Element): (p: seq<Element>)
    ensures |p| == 5 && p[1].Table? && p[3] == chart
  {
    [Paragraph(Subtitle, title), Table(texts), Paragraph(Subtitle, "KPI总计月度趋势"), chart, Spacer]
  }

  /**
   * What _add_kpi_stats appends: the title, then a notice when the frame
   * is empty; otherwise the table of the frame and the chart of its
   * KPI总计 column by month.
   */
  ghost predicate KpiLayout(kpi: Frame, title: string, p: seq<Element>)
    requires WellShaped(kpi)
  {
    if kpi.rows == [] then p == [Paragraph(Subtitle, title), Paragraph(Normal, "本周期内没有KPI统计数据。"), Spacer]
    else |p| == 5 && KpiChart(kpi, p[3]) && p == KpiPart(title, TableTexts(true, TableData(kpi)), p[3])
  }

  /**
   * _add_kpi_stats: the elements it appends, or None where it raises (a
   * KPI总计 cell that is NULL or no rate, or 月份 missing).
   */
  method KpiStats(kpi: Frame, title: string) returns (more: Option<seq<Element>>)
    requires WellShaped(kpi)
    ensures more.Some? <==> KpiChartOk(kpi)
    ensures more.Some? ==> KpiLayout(kpi, title, more.value)
  {
    if kpi.rows == [] {
      return Some([Paragraph(Subtitle, title), Paragraph(Normal, "本周期内没有KPI统计数据。"), Spacer]);
    }
    var texts := DataTableTexts(true, TableData(kpi));
    var chart := KpiLine(kpi);
    if chart.None? {
      return None;
    }
    return Some(KpiPart(title, texts, chart.value));
  }

  /**
   * The chart of _add_kpi_stats: the months as categories and KPI总计 as
   * the only line; None where a KPI总计 cell does not read as a rate or
   * 月份 is missing.
   */
  method KpiLine(kpi: Frame) returns (chart: Option<Element>)
    requires WellShaped(kpi)
    ensures chart.Some? <==> KpiRates(kpi).Some? && "月份" in kpi.columns
    ensures chart.Some? ==> chart.value.LineChart? && KpiChart(kpi, chart.value)
  {
    var rates := KpiRates(kpi);
    var m := ColumnIndex(kpi.columns, "月份");
    if rates.None? || m.None? {
      return None;
    }
    var y := [Map(rates.value, Present)];
    var lines := StyleLines(Latest, ["KPI总计"]);
    if lines.None? {
      assert false;
      return None;
    }
    return Some(LineChart(KpiMonths(kpi, m.value), y, LabelArray(y), lines.value));
  }

  /** The line chart drawn from TeamGrid's results is the trend chart of the points. */
  lemma ChartOfGrid(points: seq<Point>, x: seq<string>, lineTypes: seq<string>, y: seq<seq<Option<nat>>>, lines: seq<LineStyle>)
    requires x == Months(points)
    requires NoDup(lineTypes) && |lineTypes| == |Teams(points)|
    requires forall t :: t in lineTypes <==> t in Teams(points)
    requires |y| == |lineTypes|
    requires forall k :: 0 <= k < |y| ==> |y[k]| == |x|
    requires forall k, j :: 0 <= k < |y| && 0 <= j < |x| ==> y[k][j] == FirstRate(points, lineTypes[k], x[j])
    requires |lines| == |lineTypes| <= |Palette(Latest)|
    requires forall i :: 0 <= i < |lineTypes| ==> lines[i] == LineStyle(Width(Latest, i), Palette(Latest)[i], lineTypes[i])
    ensures TrendChart(points, LineChart(x, y, LabelArray(y), lines))
  {
    LineNames(lineTypes, lines, Teams(points));
    StylesOf(lines, lineTypes, Palette(Latest));
  }

  lemma StylesOf(lines: seq<LineStyle>, names: seq<string>, pal: seq<Colour>)
    requires |lines| == |names| <= |pal|
    requires forall i :: 0 <= i < |names| ==> lines[i] == LineStyle(Width(Latest, i), pal[i], names[i])
    ensures forall k :: 0 <= k < |lines| ==> lines[k].width == Width(Latest, k) && lines[k].colour == pal[k]
    ensures forall k :: 0 <= k < |lines| ==> lines[k].name == names[k]
  {
  }

  /** Lines named after distinct teams, one per team: every team has its line and no two lines share a name. */
  lemma LineNames(lineTypes: seq<string>, lines: seq<LineStyle>, teams: set<string>)
    requires NoDup(lineTypes) && forall t :: t in lineTypes <==> t in teams
    requires |lines| == |lineTypes| && forall i :: 0 <= i < |lineTypes| ==> lines[i].name == lineTypes[i]
    ensures forall t :: t in teams <==> exists k :: 0 <= k < |lines| && lines[k].name == t
    ensures forall k, l :: 0 <= k < l < |lines| ==> lines[k].name != lines[l].name
  {
    forall t ensures t in teams <==> exists k :: 0 <= k < |lines| && lines[k].name == t {
      if t in teams {
        var k :| 0 <= k < |lineTypes| && lineTypes[k] == t;
        assert lines[k].name == t;
      }
    }
  }

  /** ticket_summary['total'].iloc[0], or 0 for an empty frame. */
  function SummaryLine(summary: Option<nat>): string
  {
    "iTop共接收工单数 " + CountText(summary.GetOr(0)) + " 起，各类工单处理情况如下："
  }

  /** A table of a frame under a heading, or a notice when the frame is empty. */
  function FrameSection(heading: string, f: Frame, none: string): (r: seq<Element>)
    requires WellShaped(f)
    ensures |r| == 3 && r[0] == Paragraph(Subtitle, heading) && r[2] == Spacer
    ensures r[1].Table? <==> f.rows != []
    ensures f.rows != [] ==> r[1].texts == TableTexts(true, TableData(f))
  {
    [Paragraph(Subtitle, heading),
     if f.rows == [] then Paragraph(Normal, none) else Table(TableTexts(true, TableData(f))),
     Spacer]
  }

  /** The whole report is produced exactly when both its charts can be drawn. */
  predicate Renders(team: Frame, infra: Frame, app: Frame)
    requires WellShaped(team) && WellShaped(infra) && WellShaped(app)
  {
    TeamChartOk(team) && KpiChartOk(infra) && KpiChartOk(app)
  }

  /**
   * The beginning of the story: the title, the summary line, the service
   * statistics and the heading of the team section.
   */
  function Opening(start: Date, end: Date, summary: Option<nat>,
                   request: Option<Breakdown>, incident: Option<Breakdown>, change: Option<Breakdown>): (r: seq<Element>)
    requires ValidDate(start) && ValidDate(end)
    requires request.Some? ==> Consistent(request.value)
    requires incident.Some? ==> Consistent(incident.value)
    requires change.Some? ==> Consistent(change.value)
  {
    [Paragraph(TitleStyle, Title(start, end)), Spacer,
     Paragraph(Subtitle, SummaryLine(summary)), Spacer,
     Paragraph(Subtitle, "1. 按服务类型统计分析如下：")]
    + ServiceStats(request, incident, change)
    + [Paragraph(Subtitle, "2. 按照工单处理团队统计，具体如下")]
  }

  /** Sections 3 to 5: the engineer table, the unresolved tickets and the tickets past their SLA. */
  function Listings(person: Frame, unresolved: Frame, overdue: Frame): seq<Element>
    requires WellShaped(person) && WellShaped(unresolved) && WellShaped(overdue)
  {
    FrameSection("3. 按照工单处理工程师统计，具体如下", person, "本周期内没有要处理的工单")
    + FrameSection("4. 未解决的工单如下", unresolved, "本周期内没有未解决的工单。")
    + FrameSection("5. SLA超时的工单如下", overdue, "本周期内没有SLA超时的工单。")
  }

  /** The team part, the Infra KPI part and the App KPI part, as _add_team_stats and _add_kpi_stats append them. */
  ghost predicate Parts(team: Frame, infra: Frame, app: Frame, t: seq<Element>, i: seq<Element>, a: seq<Element>)
    requires WellShaped(team) && WellShaped(infra) && WellShaped(app)
  {
    TeamLayout(team, t) && KpiLayout(infra, "6. Infra KPI 统计", i) && KpiLayout(app, "7. 应用 KPI 统计", a)
  }

  /**
   * generate_pdf: the opening, the team part, the three listings and the
   * two KPI parts, in this order; None when a part raises.
   */
  method GeneratePdf(start: Date, end: Date, summary: Option<nat>,
                     request: Option<Breakdown>, incident: Option<Breakdown>, change: Option<Breakdown>,
                     team: Frame, person: Frame, unresolved: Frame, overdue: Frame,
                     infra: Frame, app: Frame)
    returns (r: Option<seq<Element>>)
    requires ValidDate(start) && ValidDate(end)
    requires request.Some? ==> Consistent(request.value)
    requires incident.Some? ==> Consistent(incident.value)
    requires change.Some? ==> Consistent(change.value)
    requires WellShaped(team) && WellShaped(person) && WellShaped(unresolved) && WellShaped(overdue)
    requires WellShaped(infra) && WellShaped(app)
    ensures r.Some? <==> Renders(team, infra, app)
    ensures r.Some? ==> exists t, i, a ::
      && Parts(team, infra, app, t, i, a)
      && r.value == Opening(start, end, summary, request, incident, change) + t
                    + Listings(person, unresolved, overdue) + i + a
  {
    var t := TeamStats(team);
    var i := KpiStats(infra, "6. Infra KPI 统计");
    var a := KpiStats(app, "7. 应用 KPI 统计");
    if t.None? || i.None? || a.None? {
      return None;
    }
    assert Parts(team, infra, app, t.value, i.value, a.value);
    r := Some(Opening(start, end, summary, request, incident, change) + t.value
              + Listings(person, unresolved, overdue) + i.value + a.value);
  }
}
