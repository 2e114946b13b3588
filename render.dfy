/**
 * The figures the PDF report derives from the query results: the shares
 * quoted in the status paragraphs ('.2f'), the percent labels of the pie
 * charts ('%.1f%%'), the value labels and line styles of the line charts,
 * the report title, and the dashboard's condition for drawing the team
 * trend chart. Shares are exact rationals rounded as Python's formatting
 * rounds them: to the nearest unit, ties to even.
 */
module Render {
  import opened Wrappers
  import opened Seqs
  import opened Text
  import opened Calendar
  import opened Tickets
  import opened Measures
  import opened StatusStats

  // ---------------------------------------------------------------------
  // Rounded shares.

  /** `h` is within half a unit of x / d. */
  predicate Nearest(h: nat, x: nat, d: nat)
  {
    (2 * h - 1) * d <= 2 * x <= (2 * h + 1) * d
  }

  /**
   * num / den * 100 printed with as many decimals as make `unit` units of
   * a whole (10000 for '.2f', 1000 for '.1f'): the nearest unit, ties to
   * even. A part never gets more than the whole, the whole gets exactly
   * `unit`, nothing gets 0, and at least the whole gets at least `unit`.
   */
  function Percent(num: nat, den: nat, unit: nat): (h: nat)
    requires den > 0
    ensures Nearest(h, unit * num, den) && TiesEven(h, unit * num, den)
    ensures num <= den ==> h <= unit
    ensures num == den ==> h == unit
    ensures num >= den ==> h >= unit
    ensures num == 0 ==> h == 0
  {
    var h := RoundHalfEven(unit * num, den);
    var e := RoundHalfEven(unit * den, den);
    PercentBounds(num, den, unit, h, e);
    h
  }

  /** Ties to even: a value exactly halfway between two units goes to the even one. */
  predicate TiesEven(h: nat, x: nat, d: nat)
  {
    (2 * x == (2 * h - 1) * d || 2 * x == (2 * h + 1) * d) ==> h % 2 == 0
  }

  lemma PercentBounds(num: nat, den: nat, unit: nat, h: nat, e: nat)
    requires den > 0
    requires Nearest(h, unit * num, den) && TiesEven(h, unit * num, den)
    requires Nearest(e, unit * den, den) && TiesEven(e, unit * den, den)
    ensures num <= den ==> h <= unit
    ensures num >= den ==> h >= unit
    ensures num == 0 ==> h == 0
  {
    assert unit * den == den * unit;
    NearestExact(e, unit, den);
    if num <= den {
      MulMono(num, den, unit);
      NearestMonotone(h, unit * num, e, unit * den, den);
    }
    if num >= den {
      MulMono(den, num, unit);
      NearestMonotone(e, unit * den, h, unit * num, den);
    }
    if num == 0 {
      NearestExact(h, 0, den);
    }
  }

  /** Rounding to the nearest unit, ties to even, never reverses an order. */
  lemma NearestMonotone(h1: nat, x1: nat, h2: nat, x2: nat, d: nat)
    requires d > 0 && x1 <= x2
    requires Nearest(h1, x1, d) && TiesEven(h1, x1, d)
    requires Nearest(h2, x2, d) && TiesEven(h2, x2, d)
    ensures h1 <= h2
  {
    if h1 > h2 + 1 {
      MulStrict(2 * h2 + 1, 2 * h1 - 1, d);
    }
    // Otherwise h1 == h2 + 1 would make x1 and x2 both ties,
    // (2 h1 - 1) d == 2 x1 == 2 x2 == (2 h2 + 1) d, on neighbouring units.
  }

  /** An exact multiple of the denominator rounds to itself. */
  lemma NearestExact(h: nat, u: nat, d: nat)
    requires d > 0 && Nearest(h, u * d, d)
    ensures h == u
  {
    assert 2 * (u * d) == (2 * u) * d;
    if h > u {
      MulStrict(2 * u, 2 * h - 1, d);
    } else if h < u {
      MulStrict(2 * h + 1, 2 * u, d);
    }
  }

  /** The rounded shares of two parts of a whole add up to the whole, give or take one unit. */
  lemma NearestSum(h1: nat, x1: nat, h2: nat, x2: nat, d: nat, s: nat)
    requires d > 0 && x1 + x2 == s * d
    requires Nearest(h1, x1, d) && Nearest(h2, x2, d)
    ensures s - 1 <= h1 + h2 <= s + 1
  {
    var h := h1 + h2;
    assert (2 * h1 - 1) * d + (2 * h2 - 1) * d == (2 * h - 2) * d;
    assert (2 * h1 + 1) * d + (2 * h2 + 1) * d == (2 * h + 2) * d;
    assert 2 * (s * d) == (2 * s) * d;
    if h > s + 1 {
      MulStrict(2 * s, 2 * h - 2, d);
    } else if h + 1 < s {
      MulStrict(2 * h + 2, 2 * s, d);
    }
  }

  /** Shares of two parts that make up the whole add up to 100%, give or take one unit. */
  lemma PercentSum(a: nat, b: nat, d: nat, unit: nat)
    requires d > 0
    ensures a + b == d ==> unit - 1 <= Percent(a, d, unit) + Percent(b, d, unit) <= unit + 1
  {
    if a + b == d {
      assert unit * a + unit * b == unit * d;
      NearestSum(Percent(a, d, unit), unit * a, Percent(b, d, unit), unit * b, d, unit);
    }
  }

  // ---------------------------------------------------------------------
  // The status paragraphs.

  /** The request or incident paragraph: none this period, or its three shares in hundredths. */
  datatype RequestParagraph = NoRequests | RequestShares(resolved: nat, closed: nat, unresolved: nat)

  /** The change paragraph: none this period, or its two shares in hundredths. */
  datatype ChangeParagraph = NoChanges | ChangeShares(closed: nat, resolved: nat)

  /**
   * The request and incident paragraphs: only with tickets in the period,
   * the resolved and the unresolved share of the total and the closed
   * share of the resolved, 0 when nothing is resolved. When resolved and
   * unresolved make up the total, their shares make up 100.00% within one
   * hundredth.
   */
  function RequestNarrative(total: nat, resolved: nat, closed: nat, unresolved: nat): (r: RequestParagraph)
    ensures r.NoRequests? <==> total == 0
    ensures r.RequestShares? && resolved == 0 ==> r.closed == 0
    ensures r.RequestShares? && resolved + unresolved == total ==>
      && r.resolved <= 10000 && r.unresolved <= 10000
      && 9999 <= r.resolved + r.unresolved <= 10001
    ensures r.RequestShares? && closed <= resolved ==> r.closed <= 10000
    ensures r.RequestShares? && 0 < closed == resolved ==> r.closed == 10000
  {
    if total == 0 then NoRequests
    else
      PercentSum(resolved, unresolved, total, 10000);
      RequestShares(Percent(resolved, total, 10000),
                    if resolved > 0 then Percent(closed, resolved, 10000) else 0,
                    Percent(unresolved, total, 10000))
  }

  /**
   * The change paragraph: only with changes in the period, the closed
   * share of the total and the resolved share of the closed, 0 when none
   * is closed. Closed changes are resolved ones, so the second share is
   * never below 100.00% once a change is closed.
   */
  function ChangeNarrative(total: nat, resolved: nat, closed: nat): (r: ChangeParagraph)
    ensures r.NoChanges? <==> total == 0
    ensures r.ChangeShares? && closed <= total ==> r.closed <= 10000
    ensures r.ChangeShares? && closed == 0 ==> r.resolved == 0
    ensures r.ChangeShares? && 0 < closed <= resolved ==> r.resolved >= 10000
  {
    if total == 0 then NoChanges
    else
      ChangeShares(Percent(closed, total, 10000),
                   if closed > 0 then Percent(resolved, closed, 10000) else 0)
  }

  /**
   * The paragraph of a class's breakdown: none exactly when the class has
   * no ticket in the period; otherwise resolved and unresolved shares that
   * make up 100.00% within one hundredth and a closed share of at most
   * 100.00%.
   */
  lemma BreakdownNarrative(cls: TicketClass, rows: seq<Ticket>, start: Date, end: Date)
    ensures var b := StatusBreakdown(cls, rows, start, end);
      var r := RequestNarrative(b.total, b.resolved.GetOr(0), b.closed.GetOr(0), b.unresolved.GetOr(0));
      && (r.NoRequests? <==> b.total == 0)
      && (r.RequestShares? ==> 9999 <= r.resolved + r.unresolved <= 10001 && r.closed <= 10000)
  {
  }

  /** Every closed change is a resolved one, so the change paragraph's second share is at least 100.00%. */
  lemma ChangeNarrativeOverHundred(rows: seq<Ticket>, start: Date, end: Date)
    ensures var b := StatusBreakdown(Change, rows, start, end);
      var r := ChangeNarrative(b.total, b.resolved.GetOr(0), b.closed.GetOr(0));
      && (r.NoChanges? <==> b.total == 0)
      && (r.ChangeShares? && b.closed.value > 0 ==> r.resolved >= 10000 && r.closed <= 10000)
  {
  }

  /**
   * Ten tickets, eight resolved, six of them closed, two unresolved: the
   * paragraph prints f'{x:.2f}%' of 80.00, 75.00 and 20.00.
   */
  lemma WorkedExample()
    ensures RequestNarrative(10, 8, 6, 2) == RequestShares(8000, 7500, 2000)
    ensures PercentText(8000) == "80.00%" && PercentText(7500) == "75.00%" && PercentText(2000) == "20.00%"
  {
    ExampleShares();
    ExampleTexts();
  }

  lemma ExampleShares()
    ensures RequestNarrative(10, 8, 6, 2) == RequestShares(8000, 7500, 2000)
  {
    assert RoundHalfEven(10000 * 8, 10) == 8000;
    assert RoundHalfEven(10000 * 6, 8) == 7500;
    assert RoundHalfEven(10000 * 2, 10) == 2000;
  }

  lemma ExampleTexts()
    ensures Fixed2(8000) == "80.00" && Fixed2(7500) == "75.00" && Fixed2(2000) == "20.00"
  {
    ZeroCents();
    assert NatToString(80) == "80";
    assert NatToString(75) == "75";
    assert NatToString(20) == "20";
  }

  lemma ZeroCents()
    ensures Pad(2, 0) == "00"
  {
    assert Pad(1, 0) == "0";
  }

  // ---------------------------------------------------------------------
  // Pie labels.

  /** sum(data). */
  function Total(data: seq<nat>): nat
  {
    if data == [] then 0 else Total(data[..|data| - 1]) + data[|data| - 1]
  }

  lemma {:induction false} PartAtMostTotal(data: seq<nat>, i: nat)
    requires i < |data|
    ensures data[i] <= Total(data)
  {
    if i < |data| - 1 {
      PartAtMostTotal(data[..|data| - 1], i);
    }
  }

  lemma TotalOfTwo(a: nat, b: nat)
    ensures Total([a, b]) == a + b
  {
    assert [a, b][..1] == [a];
    assert [a][..0] == [];
    assert Total([a]) == a;
  }

  lemma TotalOfThree(a: nat, b: nat, c: nat)
    ensures Total([a, b, c]) == a + b + c
  {
    assert [a, b, c][..2] == [a, b];
    TotalOfTwo(a, b);
  }

  /**
   * '%.1f%%' % (value / total * 100) for every slice, in tenths of a
   * percent, with total = sum(data); a zero sum divides by zero (None).
   * Every label is the nearest tenth of the slice's share, ties to even
   * as '%.1f' rounds them, at most 100.0,
   * and a larger slice never gets a smaller label.
   */
  function PieShares(data: seq<nat>): (r: Option<seq<nat>>)
    ensures r.None? <==> Total(data) == 0
    ensures r.Some? ==> |r.value| == |data|
    ensures r.Some? ==> forall i :: 0 <= i < |data| ==>
      r.value[i] <= 1000 && Nearest(r.value[i], 1000 * data[i], Total(data))
      && TiesEven(r.value[i], 1000 * data[i], Total(data))
    ensures r.Some? ==> forall i, j :: 0 <= i < |data| && 0 <= j < |data| && data[i] <= data[j] ==>
      r.value[i] <= r.value[j]
  {
    var t := Total(data);
    if t == 0 then None
    else
      var r := seq(|data|, i requires 0 <= i < |data| => Percent(data[i], t, 1000));
      forall i | 0 <= i < |data| ensures r[i] <= 1000 {
        PartAtMostTotal(data, i);
      }
      forall i, j | 0 <= i < |data| && 0 <= j < |data| && data[i] <= data[j] ensures r[i] <= r[j] {
        NearestMonotone(r[i], 1000 * data[i], r[j], 1000 * data[j], t);
      }
      Some(r)
  }

  /** A pie label's text: '%.1f%%'. */
  function PieLabel(t: nat): string
  {
    Fixed1(t) + "%"
  }

  /**
   * The request and incident pies slice [resolved, unresolved, closed] of
   * a breakdown with tickets: the slices add up to total + closed, which
   * is positive, so every label exists, and the closed slice is never
   * labelled above the resolved one.
   */
  lemma RequestPieLabels(cls: TicketClass, rows: seq<Ticket>, start: Date, end: Date)
    requires StatusBreakdown(cls, rows, start, end).total > 0
    ensures var b := StatusBreakdown(cls, rows, start, end);
      var data := [b.resolved.value, b.unresolved.value, b.closed.value];
      && Total(data) == b.total + b.closed.value
      && PieShares(data).Some?
      && PieShares(data).value[2] <= PieShares(data).value[0]
  {
    var b := StatusBreakdown(cls, rows, start, end);
    var data := [b.resolved.value, b.unresolved.value, b.closed.value];
    TotalOfThree(data[0], data[1], data[2]);
  }

  /**
   * The change pie slices [resolved, total - resolved] of a breakdown with
   * changes: both slices are non-negative, they add up to the total, and
   * their two labels make up 100.0% within one tenth.
   */
  lemma ChangePieLabels(rows: seq<Ticket>, start: Date, end: Date)
    requires StatusBreakdown(Change, rows, start, end).total > 0
    ensures var b := StatusBreakdown(Change, rows, start, end);
      && b.resolved.value <= b.total
      && var data := [b.resolved.value, b.total - b.resolved.value];
      && Total(data) == b.total
      && PieShares(data).Some?
      && 999 <= PieShares(data).value[0] + PieShares(data).value[1] <= 1001
  {
    var b := StatusBreakdown(Change, rows, start, end);
    var data := [b.resolved.value, b.total - b.resolved.value];
    TotalOfTwo(data[0], data[1]);
    PercentSum(data[0], data[1], b.total, 1000);
  }

  // ---------------------------------------------------------------------
  // Line charts.

  /** str(v) + '%' of a rate held as a float: it reads back as the rate. */
  function RateLabel(h: nat): (s: string)
    ensures ParseRate(s) == Some(h)
  {
    var f := FloatRepr(h);
    FloatReprRoundTrip(h);
    FloatReprEndsInDigit(h);
    RStripOne(f);
    f + "%"
  }

  lemma FloatReprEndsInDigit(h: nat)
    ensures var f := FloatRepr(h); f != [] && IsDigit(f[|f| - 1])
  {
  }

  /**
   * One series' value labels: a label per non-None value, in order, each
   * reading back as its value.
   */
  function LabelLine(line: seq<Option<nat>>): (r: seq<string>)
    ensures |r| == |NonNull(line)| <= |line|
    ensures forall i :: 0 <= i < |r| ==> ParseRate(r[i]) == Some(NonNull(line)[i])
  {
    Map(NonNull(line), RateLabel)
  }

  /**
   * label_array: one list of labels per series, holding a label for each
   * of the series' values that is not None, in order.
   */
  function LabelArray(y: seq<seq<Option<nat>>>): (r: seq<seq<string>>)
    ensures |r| == |y|
    ensures forall k :: 0 <= k < |y| ==> |r[k]| == |NonNull(y[k])| <= |y[k]|
    ensures forall k, i :: 0 <= k < |y| && 0 <= i < |r[k]| ==> ParseRate(r[k][i]) == Some(NonNull(y[k])[i])
  {
    Map(y, LabelLine)
  }

  /** A series without gaps gets one label per point, the i-th reading back as the i-th value. */
  lemma {:induction false} LabelsOfFullSeries(line: seq<Option<nat>>)
    requires forall i :: 0 <= i < |line| ==> line[i].Some?
    ensures |NonNull(line)| == |line|
    ensures forall i :: 0 <= i < |line| ==> NonNull(line)[i] == line[i].value
  {
    if line != [] {
      var p := line[..|line| - 1];
      LabelsOfFullSeries(p);
    }
  }

  /**
   * A gap shifts the labels: a series with no value for its first month
   * and `v` for its second has a single label, at index 0, reading `v`.
   */
  lemma LabelsShiftAfterGap(v: nat)
    ensures var r := LabelLine([None, Some(v)]);
      |r| == 1 && ParseRate(r[0]) == Some(v)
  {
    assert [None, Some(v)][..1] == [None];
    assert NonNull([None, Some(v)]) == [v];
  }

  /** The named reportlab colours of line_colors (colors.<name>). */
  datatype Colour =
    | Orange | Grey | Coral | Salmon | LightCoral | Tomato | DarkOrange | Goldenrod | Khaki
    | LightGoldenrodYellow | DarkGrey | DarkSalmon | LightBlue | SkyBlue | PowderBlue | LightGrey
    | DarkBlue | BlueGrey | LightSteelBlue | SlateBlue | DodgerBlue | CornflowerBlue | SteelBlue
    | RoyalBlue | Indigo | NavyBlue | MidnightBlue

  /** One line's style: width in tenths of a point (None leaves reportlab's default), colour and name. */
  datatype LineStyle = LineStyle(width: Option<nat>, colour: Colour, name: string)

  /** line_colors: one colour per series. */
  function Palette(fork: Fork): seq<Colour>
  {
    match fork
    case Latest =>
      [Orange, Grey, Coral, Salmon, LightCoral, Tomato, DarkOrange, Goldenrod, Khaki, LightGoldenrodYellow]
    case Dated =>
      [Orange, Grey, Coral, Salmon, LightCoral, Tomato, DarkOrange, Goldenrod, Khaki,
       LightGoldenrodYellow, DarkOrange, DarkGrey, DarkSalmon, LightBlue, SkyBlue, PowderBlue,
       LightGrey, DarkBlue, BlueGrey, LightSteelBlue, SlateBlue, DodgerBlue, CornflowerBlue,
       SteelBlue, RoyalBlue, Indigo, NavyBlue, DarkBlue, MidnightBlue]
  }

  /**
   * The stroke width of line `i`: the latest version gives the first line
   * 2 and every other 1.5; the dated one sets only lines 0 and 1.
   */
  function Width(fork: Fork, i: nat): Option<nat>
  {
    if i == 0 then Some(20)
    else if fork == Latest || i == 1 then Some(15)
    else None
  }

  /**
   * The loop over line_types: line i gets its width, colour i and name i.
   * More series than colours index past the list (None: the chart, and
   * with it the report, is not produced).
   */
  method StyleLines(fork: Fork, lineTypes: seq<string>) returns (r: Option<seq<LineStyle>>)
    ensures r.None? <==> |lineTypes| > |Palette(fork)|
    ensures r.Some? ==> |r.value| == |lineTypes|
    ensures r.Some? ==> forall i :: 0 <= i < |lineTypes| ==>
      r.value[i] == LineStyle(Width(fork, i), Palette(fork)[i], lineTypes[i])
  {
    var colours := Palette(fork);
    var lines: seq<LineStyle> := [];
    var i := 0;
    while i < |lineTypes|
      invariant 0 <= i <= |lineTypes| && i <= |colours|
      invariant |lines| == i
      invariant forall k :: 0 <= k < i ==> lines[k] == LineStyle(Width(fork, k), colours[k], lineTypes[k])
    {
      if i >= |colours| {
        return None;
      }
      lines := lines + [LineStyle(Width(fork, i), colours[i], lineTypes[i])];
      i := i + 1;
    }
    return Some(lines);
  }

  /** Up to ten series, both versions colour the lines alike; only the dated one has more colours. */
  lemma PalettesAgree()
    ensures |Palette(Latest)| == 10 && |Palette(Dated)| == 29
    ensures Palette(Dated)[..10] == Palette(Latest)
  {
  }

  /**
   * The latest palette gives every series its own colour; the dated one
   * repeats darkorange for series 6 and 10 and darkblue for series 17 and 27.
   */
  lemma PaletteRepeats()
    ensures NoDup(Palette(Latest))
    ensures Palette(Dated)[6] == Palette(Dated)[10]
    ensures Palette(Dated)[17] == Palette(Dated)[27]
  {
  }

  // ---------------------------------------------------------------------
  // Title and trend chart.

  /** '{d.year}年{d.month}月'. */
  function MonthText(d: Date): (s: string)
    requires ValidDate(d)
    ensures '至' !in s
  {
    NatToString(d.year) + "年" + NatToString(d.month) + "月"
  }

  /**
   * The report title, and the dashboard's period line: the start month,
   * followed by '至' and the end month only when the two month numbers
   * differ; the years are not compared.
   */
  function Title(start: Date, end: Date): (s: string)
    requires ValidDate(start) && ValidDate(end)
    ensures '至' in s <==> start.month != end.month
  {
    "<para alignment='center'>iTop 运维服务报表 ("
      + MonthText(start)
      + (if start.month != end.month then "至" + MonthText(end) else "")
      + ")</para>"
  }

  /** A period of thirteen months, January to January, is titled as its first month alone. */
  lemma TitleIgnoresYear()
    ensures Title(Date(2024, 1, 1), Date(2025, 1, 31)) == Title(Date(2024, 1, 1), Date(2024, 1, 31))
    ensures '至' !in Title(Date(2024, 1, 1), Date(2025, 1, 31))
  {
  }

  /**
   * len(df['月份'].unique()) > 1: the trend chart is drawn exactly when
   * the team rollup holds two different months.
   */
  function DrawTrend(months: seq<string>): (b: bool)
    ensures b <==> exists i, j :: 0 <= i < |months| && 0 <= j < |months| && months[i] != months[j]
  {
    DistinctCount(months);
    |Distinct(months)| > 1
  }

  lemma DistinctCount(s: seq<string>)
    ensures |Distinct(s)| > 1 <==> exists i, j :: 0 <= i < |s| && 0 <= j < |s| && s[i] != s[j]
  {
    var d := Distinct(s);
    if |d| > 1 {
      assert d[0] in s && d[1] in s && d[0] != d[1];
    } else if s != [] {
      assert s[0] in d;
      forall i | 0 <= i < |s| ensures s[i] == d[0] {
        assert s[i] in d;
      }
    }
  }
}
