# iTop monthly report — a Dafny model

The iTop report is a small Streamlit application. It reads an iTop
service-management database over a chosen period and produces a monthly
operations report, both on screen and as a PDF. This project models its
core:

- **The statistics queries.** These cover the ticket summary; the status
  breakdowns of service requests, incidents and changes; the per-team and
  per-engineer rollups; the unresolved and SLA-overdue listings; and the
  two-pass Infra and App KPI pivots.
  - Each query is a function over a ticket table, a directory of persons
    and contacts, and the half-open period `[start, end)`.
  - The functions state SQL's behaviour explicitly: NULL sums over no row,
    `NULLIF`, `ROUND`, `GROUP BY` groups in order of first appearance, and
    `UNION` dropping duplicate rows.
- **The parameter loop of `execute_query`.** It rewrites every date or
  datetime parameter in place as its `YYYY-MM-DD` text.
- **The PDF renderer.** This covers:
  - the narrative percentages (`.2f`, rounded half to even) and the pie
    labels (`'%.1f%%'`);
  - the team trend grid: one series per team over the sorted distinct
    months, built by two nested loops;
  - the line labels (`str(v) + '%'`) and the line-colour limit;
  - the report title;
  - `_create_data_table`'s cell-by-cell rewrite of a reportlab table;
  - the whole `generate_pdf` element sequence, including its `None` on
    error.

The repository has two versions of the application, and the model
carries both as `Fork`:

- `Latest` is `itop_report.py` with `pdf_generator.py`.
- `Dated` is `itop_report_20250110.py`, which has its own renderer.

Where they differ, each is modelled:

- the SLA flag each version checks (`*_100_passed` against `*_75_passed`);
- the 已解决 column, which only `Latest`'s team and engineer rollups have;
- the KPI "resolved" rule, which subtracts `ttr_100_passed` only in
  `Latest`;
- the overdue filter;
- the line palette, with 10 colours in `Latest` and 29 in `Dated`;
- which tables decode a byte-string cell: every table in `Latest`, only
  the two KPI tables in `Dated`.

Numbers are exact. Rates are held in hundredths of a percent and
durations in hundredths of a minute. `ROUND` is rounding half away from
zero on the exact value; Python's `'%.2f'` and `'%.1f'` are rounding half
to even. Python sets and dictionaries whose iteration order the program
does not fix are visited in any order (`:|`).

The two KPI queries pick their column names with a discovery query, then
group tickets by a pivot key. Both keys read a ticket's service through
`COALESCE` over two names: the sub-service name and the parent service
name.

- In the pivot key the sub-service comes first:
  `COALESCE(s2.name, COALESCE(s.name, '未分类'))`.
- In `itop_report.py`'s Infra discovery query (line 473) the parent
  service comes first. That mismatch is the finding below.
- In `itop_report_20250110.py` both Infra queries (lines 620 and 665), and
  both App queries of either version, discover by the same sub-service
  first key as the pivot.

## Model

| member | source | states |
|---|---|---|
| Params.Bound | itop_report.py:131-132 | a date or datetime parameter is bound as text, never as a date again; any other value is passed through unchanged |
| Params.BoundReadsBack | itop_report.py:132 | the text bound for a date reads back as exactly that date; for a datetime, as its day |
| Params.Formatted | itop_report.py:130-132 | after the loop the dictionary has the same keys and no date-like value |
| Params.FormattedIdempotent | itop_report.py:130-132 | running the rewrite a second time changes nothing |
| Params.FormattedDates | itop_report.py:131-132 | each date parameter reaches the database as its own date; a datetime reaches it truncated to its day |
| Params.QueryParams.constructor | itop_report.py:158 | every query is called with exactly the keys start_date and end_date |
| Params.QueryParams.FormatDates | itop_report.py:130-132 | the in-place loop over the keys, in any order, leaves the dictionary equal to Formatted of the old one |
| Calendar.DaysInMonth | itop_report.py:801 | calendar.monthrange's day count is between 28 and 31 |
| Calendar.SecondsBetween | itop_report.py:253-254 | TIMESTAMPDIFF is NULL exactly when an end is NULL, else the difference of the two instants in seconds |
| Calendar.SameDaySeconds | itop_report.py:253-254 | within one day the difference is the difference of the seconds of the day |
| Calendar.IsoText | itop_report.py:132 | a date is sent as ten characters, YYYY-MM-DD |
| Calendar.ParseIso | itop_report.py:258 | the database reads a date only from a ten-character text |
| Calendar.IsoTextRoundTrip | itop_report.py:132 | strftime('%Y-%m-%d') of a valid date parses back to the same date |
| Calendar.MonthLabel | itop_report.py:212 | a month label has a fixed width of eight characters |
| Calendar.MonthLabelInjective | itop_report.py:212 | two '%Y年%m月' labels are equal exactly when the dates fall in the same month, so grouping by the label groups by month |
| Calendar.MonthLabelOrder | pdf_generator.py:317 | sorting month labels as text puts them in calendar order |
| Calendar.LastDayOfPreviousMonth | itop_report.py:795 | replace(day=1) minus one day is the last day of the previous month, before today; it overflows only in January of year 1 |
| Calendar.DefaultPeriod | itop_report.py:794-801 | the default period starts on the 1st and ends on the last day of one month, the month before today |
| Calendar.DefaultPeriodDropsLastDay | itop_report.py:801 | with the exclusive end bound, tickets opened on the default end date are outside the period, while earlier days of that month are inside |
| Tickets.BucketsPartition | itop_report.py:165-172 | once 'new' is excluded, every status is resolved or unresolved and not both, and closed is part of resolved |
| Tickets.PersonName | itop_report.py:308 | a name exists exactly when the id has both a person and a contact row |
| Tickets.NameText | itop_report.py:416 | CONCAT(IFNULL(name, ''), ' ', IFNULL(first_name, '')) is one character longer than its two parts, with the space right after the name part |
| Tickets.PersonNameOrBlank | itop_report.py:416 | under a LEFT JOIN that finds no person, both IFNULL parts are empty and the CONCAT is ' '; otherwise it is the joined person's name |
| Tickets.ContactName | itop_report.py:417 | the team column is NULL exactly when the id has no contact |
| Tickets.TeamName | itop_report.py:295-296 | a team exists exactly when the id is a contact of finalclass 'Team' |
| Measures.Rate | itop_report.py:219-226 | the rate is NULL exactly for an empty group, and otherwise num × 100 / den rounded to two decimals, halves away from zero; it is at most 100.00 when the numerator does not exceed the denominator, exactly 100.00 when they are equal, and 0.00 for a zero numerator |
| Measures.RateMonotone | itop_report.py:221-222 | more resolved tickets in the same group never give a lower rate |
| Measures.RateText | itop_report.py:219-226 | the CONCAT text is NULL exactly for an empty group, and otherwise reads back as the rate |
| Measures.NonNull | itop_report.py:237 | AVG and MAX see exactly the non-NULL values, and see none only when every value is NULL |
| Measures.NonNullAtMostOne | itop_report.py:570 | where at most one row is non-NULL, AVG sees at most one value |
| Measures.AvgMinutes | itop_report.py:237 | the average duration is NULL exactly when every duration is NULL, and otherwise the sum of the non-NULL seconds over 60 times their number, rounded to two decimals |
| Measures.MaxMinutes | itop_report.py:242 | the maximum duration is NULL exactly when every duration is NULL, and otherwise the largest non-NULL seconds over 60, rounded to two decimals |
| Measures.Minutes | itop_report.py:443-444 | an overrun in minutes is NULL exactly when the seconds are, and otherwise the seconds over 60 rounded to two decimals, keeping their sign |
| Measures.AvgAtMostMax | itop_report.py:237-244 | a group's rounded average duration never exceeds its rounded maximum |
| Measures.RoundHalfAwayMonotone | itop_report.py:237 | ROUND never reverses the order of two exact values |
| Text.NatToString | pdf_generator.py:208 | str(n) is digits without leading zeros that read back as n |
| Text.Pad | itop_report.py:132 | a zero-padded field has exactly its width in digits and reads back as its number |
| Text.PadOrder | itop_report.py:212 | zero-padded numbers of one width sort as text as the numbers do |
| Text.RoundHalfUp | itop_report.py:220-224 | MySQL ROUND of an exact non-negative value is the nearest integer, halves rounded up |
| Text.RoundHalfAway | itop_report.py:237 | MySQL ROUND of an exact value of either sign is the nearest integer, halves away from zero, and keeps the sign |
| Text.RoundsToUnique | itop_report.py:237 | a quotient has only one rounding, so every contract stated with it fixes the value |
| Text.RoundHalfEven | pdf_generator.py:228 | Python's '%.2f' is the nearest unit, ties to even |
| Text.RStripPercent | pdf_generator.py:314 | rstrip('%') removes exactly the trailing '%' characters |
| Text.PercentTextRoundTrip | pdf_generator.py:314 | the renderer reads back, from the query's 'x.yy%' text, exactly the rate the query printed |
| Text.FloatReprRoundTrip | pdf_generator.py:145 | str() of a two-decimal float reads back as the same value |
| Seqs.SortBySorted | pdf_generator.py:317 | sorted() yields an ordered sequence, and SortBy's own contract keeps it a permutation |
| Seqs.GroupTotalAll | itop_report.py:297 | the groups of a GROUP BY partition its input: their sums add up to the sum over all rows |
| Seqs.SumOfPermutation | itop_report.py:299 | ORDER BY does not change a sum over the rows |
| StatusStats.SqlSum | itop_report.py:165-167 | SUM over an aggregate without GROUP BY is NULL exactly when no row qualifies |
| StatusStats.StatusBreakdown | itop_report.py:161-174 | an empty period gives total 0 and three NULL sums; otherwise resolved and unresolved split the total and closed is part of resolved |
| StatusStats.BreakdownAddsOnlyInScope | itop_report.py:169-172 | a ticket moves its class's breakdown only when it is in the period and not 'new', and then adds one to the total and to exactly one bucket |
| StatusStats.TicketSummary | itop_report.py:142-158 | the class counts add up to the total, and are NULL exactly when the total is 0 |
| StatusStats.SummarySplits | itop_report.py:145-148 | every counted ticket is a request, a change or an incident, and only one of them |
| StatusStats.SummaryMatchesBreakdowns | itop_report.py:142-206 | the summary's total is the sum of the three breakdown totals, and each class count equals that class's breakdown total |
| Rollups.TypeRankOrdersLabels | itop_report.py:299 | ORDER BY ticket_type DESC on the labels orders the three types by a fixed rank |
| Rollups.ToSubRow | itop_report.py:246-293 | a subquery row keeps its ticket's status and type; it carries the 100% flags in Latest and the 75% flags in Dated, zero flags for a change; it is overdue exactly when the ticket is breached; its durations are the ticket's response and resolution seconds |
| Rollups.RollupRow.ResolutionRate | itop_report.py:219-226 | 工单解决率 exists exactly for a non-empty group, and reads back as (count − 未解决) × 100 / count rounded to two decimals; it is at most 100.00, 100.00 with nothing unresolved and 0.00 with nothing resolved |
| Rollups.RollupRow.TimelyRate | itop_report.py:227-234 | 工单及时率 likewise: (count − 超时工单) × 100 / count rounded to two decimals, with the same bounds |
| Rollups.DurationsAgree | itop_report.py:235-244 | AVG and MAX of one duration column are NULL together, and the average is never above the maximum |
| Rollups.SubRowsOf | itop_report.py:246-293 | the subquery rows of a group carry their tickets' status and type |
| Rollups.SubRowsTally | itop_report.py:216-244 | counting and averaging a group's subquery rows is counting and averaging its tickets: unresolved, breached at the version's flags, and their response and resolution seconds |
| Rollups.GroupCounts | itop_report.py:216-218 | 已解决 and 未解决 split a group, and a group of changes has no overdue ticket |
| Rollups.GroupRow | itop_report.py:211-244 | a group's row is well formed, with the group's month label, name and type; 工单数量 is the group's size, 未解决 its unresolved tickets, 超时工单 those breached at the version's flags (100% in Latest, 75% in Dated); the resolution columns are AVG and MAX of its tickets' resolution seconds in minutes, and so are the response columns except for changes |
| Rollups.Rollup | itop_report.py:209-302 | the team and engineer rollups have at most one row per ticket |
| Rollups.AttributedTickets | itop_report.py:295-296 | only in-period tickets that have a team (or an engineer) reach the GROUP BY |
| Rollups.RollupWellFormed | itop_report.py:215-244 | every row of the rollup is well formed: counts add up and every rate reads back |
| Rollups.RollupSorted | itop_report.py:299 | the rows come out ordered by month descending, then type descending, then name |
| Rollups.RollupRowsWitnessed | itop_report.py:297 | every row comes from an in-scope ticket with that month, name and type |
| Rollups.GroupRowKeys | itop_report.py:297 | two different groups never give rows with the same (月份, name, 工单类型) |
| Rollups.RollupKeysDistinct | itop_report.py:297 | no two rows of the rollup share their (月份, name, 工单类型) |
| Rollups.GroupIsBehind | itop_report.py:295-297 | the tickets of one GROUP BY group are exactly the in-scope tickets with its row's month label, name and type |
| Rollups.RollupRowsTally | itop_report.py:209-302 | every row of the rollup tallies the in-scope tickets of its month, name and type: its counts, 未解决, 超时工单 and duration columns are those of exactly these tickets |
| Rollups.RollupCountsEveryTicket | itop_report.py:215 | the 工单数量 column adds up to the number of attributed tickets in the period |
| Listings.UnresolvedEntry | itop_report.py:407-421 | a listed row shows its ticket's ref, title, status and start; the caller and agent are their joined names, ' ' when missing; the team is the team contact's name, NULL exactly when there is none |
| Listings.UnresolvedTickets | itop_report.py:405-432 | the listing has one row per unresolved ticket of the period |
| Listings.UnresolvedListingExact | itop_report.py:426-430 | every listed row is an unresolved ticket of the period, and every such ticket is listed |
| Listings.LeadingDigits | itop_report.py:438 | the numeric prefix MySQL reads from a status used as a boolean is all digits, and empty for a status that starts with a letter |
| Listings.OverdueEntry | itop_report.py:437-453 | a status group's row shows its first ticket's title, start, last update, assignment and resolution dates and 100% deadlines; the overruns are its seconds over 60 rounded; the CASE columns are NULL exactly when the status is falsy, and otherwise its ref, team name and agent name; each average is NULL exactly when every duration is, else the group's mean in minutes rounded |
| Listings.GroupAvg | itop_report.py:452-453 | the average over a status group is NULL exactly when every duration is, and otherwise their mean in minutes, rounded to two decimals |
| Listings.GroupEntry | itop_report.py:463 | each status group's row takes the title and start of a ticket with that status |
| Listings.OverdueTickets | itop_report.py:435-466 | the listing has no more rows than there are qualifying tickets |
| Listings.OverdueOnePerStatus | itop_report.py:463 | GROUP BY tr.status gives at most one row per status |
| Listings.OverdueRowsOfTickets | itop_report.py:459-463 | every row's status, title and start belong to a qualifying ticket |
| Listings.OverdueTicketsCovered | itop_report.py:459-464 | every qualifying ticket's status has its row |
| Listings.OverdueOnlyRequests | itop_report.py:459-462 | only service requests started in the period that breach the version's SLA flags are listed |
| Listings.OverdueCallerIsAgent | itop_report.py:445-447 | 发起人 and 办理人 always agree, and for a status that starts with a letter the four CASE columns are NULL |
| Kpi.Discover | itop_report.py:471-504 | the discovery query lists each discovered name once |
| Kpi.DiscoveryMatchesPivot | itop_report.py:627 | outside Latest's Infra query, the discovered names are exactly the pivot keys of the tickets in scope |
| Kpi.LatestInfraDiscoversParents | itop_report.py:473 | Latest's Infra discovery lists the parent service names of the tickets in scope, whether or not they have a sub-service |
| Kpi.Columns | itop_report.py:509-512 | the columns are exactly the discovered names other than '未分类' |
| Kpi.BuildColumns | itop_report.py:506-512 | the loop builds each of the three SELECT-list strings as the concatenation of one fragment per column, in order |
| Kpi.FragmentInjective | itop_report.py:510-512 | different columns never produce the same fragment |
| Kpi.InfoRow | itop_report.py:515-528 | a tmp_info row counts its group: total is the group size, resolved excludes the version's unresolved tickets, and the rate text reads back as their rate |
| Kpi.ResolvedRuleForks | itop_report.py:520 | Latest's resolved count never exceeds Dated's, and the two agree when no ticket has ttr_100_passed = 1 |
| Kpi.InfoAt | itop_report.py:563 | the tmp_info row of each group sums that group's tickets |
| Kpi.InfoRows | itop_report.py:515-563 | every tmp_info row has at least one ticket, at most as many resolved as in total, and a rate |
| Kpi.InfoSums | itop_report.py:515-563 | a count over all tmp_info rows is the count over the tickets in scope |
| Kpi.Cells | itop_report.py:510 | each pivot column holds the rate only on its own service's row, NULL elsewhere |
| Kpi.MonthPivot | itop_report.py:582-589 | a month row of the UNION sums its group's counts and sets only its own service's cell, to the rate of the group's first row |
| Kpi.TotalPivot | itop_report.py:593-615 | a '总计' row of the UNION sums the service's counts over all months and sets only that service's cell, to the rate text of those sums |
| Kpi.OuterRow | itop_report.py:567-580 | an output row sums its month's UNION rows, and KPI总计 is NULL exactly when the total is 0, otherwise the rate of the summed counts |
| Kpi.Union | itop_report.py:591 | UNION keeps each distinct row once |
| Kpi.KpiCellsAtMostOne | itop_report.py:569-570 | every service cell of an output row averages at most one rate |
| Kpi.MonthPivotSums | itop_report.py:586-589 | the month half of the UNION input counts what tmp_info counts |
| Kpi.TotalPivotSums | itop_report.py:597-613 | the '总计' half of the UNION input counts what tmp_info counts |
| Kpi.OuterMonthSums | itop_report.py:579-580 | adding up the month rows adds up the UNION rows of the months |
| Kpi.TaggedNoDup | itop_report.py:591 | when every service has a column, no two UNION input rows are equal |
| Kpi.UnionKeepsAll | itop_report.py:591 | when every ticket's pivot key has a column or is '未分类', UNION removes no row |
| Kpi.MonthRowsExact | itop_report.py:579-580 | in that case the month rows' 工单总数 and 已解决 add up to the tickets in scope |
| Kpi.GrandRowPresent | itop_report.py:593-594 | whatever the columns, a ticket in scope gives the table a '总计' row |
| Kpi.GrandRowExact | itop_report.py:593-617 | with no row lost, the '总计' row adds up to the tickets in scope |
| Kpi.KpiTotalsExact | itop_report.py:469-620 | with no row lost, the table counts every ticket in scope once in its month rows and once in its '总计' row |
| Kpi.CorrectedDiscover | itop_report.py:518 | discovery by the pivot key lists each pivot key of the tickets in scope, once |
| Kpi.KpiStatsAgree | itop_report.py:623-775 | outside Latest's Infra table, the source's table is the corrected one |
| Kpi.CorrectedColumnsCover | itop_report.py:518 | with discovery by the pivot key, every ticket in scope has a column or is '未分类' |
| Kpi.CorrectedKpiExact | itop_report.py:469-620 | with discovery by the pivot key, every ticket in scope is counted exactly once in the month rows and once in the '总计' row |
| KpiFinding.ExampleColumns | itop_report.py:473 | for the example, Latest's Infra discovery finds only the parent service as a column |
| KpiFinding.ExampleInfos | itop_report.py:515-563 | tmp_info holds one row per sub-service |
| KpiFinding.UnionOfTwo | itop_report.py:591 | two uncovered services' rows become identical and merge into one month row and one '总计' row |
| KpiFinding.ExampleTable | itop_report.py:469-620 | the example's Latest Infra table is one month row and one '总计' row, all service cells NULL |
| KpiFinding.LatestInfraUndercounts | itop_report.py:473 | two tickets are in scope, but Latest's Infra table counts only one of them; the corrected table counts both |
| Render.Percent | pdf_generator.py:221-224 | a share is the nearest unit, ties to even; a part never gets more than the whole, and the whole gets exactly 100% |
| Render.PercentSum | pdf_generator.py:221-224 | the shares of two parts that make up the whole add up to 100%, within one unit |
| Render.NearestMonotone | pdf_generator.py:223 | rounding to the nearest unit, ties to even, never reverses an order |
| Render.RequestNarrative | pdf_generator.py:219-234 | there are sentences only when the period has tickets; the closed share is 0 with nothing resolved and at most 100% otherwise; the resolved and unresolved shares make up 100.00% within one hundredth |
| Render.ChangeNarrative | pdf_generator.py:286-291 | there are sentences only when the period has changes; the closed share is at most 100%; the second share is 0 with nothing closed and at least 100% when every closed change is resolved |
| Render.BreakdownNarrative | pdf_generator.py:219-234 | for any breakdown the query returns, the paragraph exists exactly when there are tickets, and its shares are consistent |
| Render.ChangeNarrativeOverHundred | pdf_generator.py:287-291 | for the change breakdown, the resolved share of the closed changes is always at least 100.00% |
| Render.WorkedExample | pdf_generator.py:226-234 | ten tickets, eight resolved, six closed and two unresolved print 80.00%, 75.00% and 20.00% |
| Render.PieShares | pdf_generator.py:61-63 | a pie's labels exist exactly when the slices' sum is not 0; each is the nearest tenth of its share, ties to even, at most 100.0%, and larger slices never get smaller labels |
| Render.RequestPieLabels | pdf_generator.py:240-242 | the request pie's slices add up to total plus closed, so its labels always exist, and the closed slice's label never exceeds the resolved one's |
| Render.ChangePieLabels | pdf_generator.py:297-299 | the change pie's slices are non-negative and add up to the total, and their labels make up 100.0% within one tenth |
| Render.RateLabel | pdf_generator.py:145 | a value label reads back as the rate it shows |
| Render.LabelLine | pdf_generator.py:145 | a series gets one label per non-None value, in order, each reading back as its value |
| Render.LabelArray | pdf_generator.py:145-146 | label_array holds one such label list per series |
| Render.LabelsOfFullSeries | pdf_generator.py:145 | a series without gaps gets one label per point, the i-th for the i-th value |
| Render.LabelsShiftAfterGap | pdf_generator.py:145 | after a gap the labels shift: the second month's value gets label index 0 |
| Render.StyleLines | pdf_generator.py:135-141 | line i gets its width, colour i and name i; more series than colours fail |
| Render.PalettesAgree | pdf_generator.py:135-136 | the Latest palette has 10 colours, the Dated one 29, and they agree on the first ten |
| Render.PaletteRepeats | itop_report_20250110.py:178-181 | the Latest palette has no repeated colour; the Dated one repeats darkorange for series 6 and 10 and darkblue for series 17 and 27 |
| Render.Title | pdf_generator.py:378-381 | the title has '至' exactly when the two month numbers differ |
| Render.MonthText | pdf_generator.py:379 | a month is written without the '至' that separates two months |
| Render.TitleIgnoresYear | pdf_generator.py:380 | January 2024 to January 2025 is titled as one month |
| Render.DrawTrend | itop_report.py:960 | the dashboard's trend chart is drawn exactly when the team rollup has two different months |
| Trend.MapAllSpec | pdf_generator.py:314 | the column conversion fails exactly when some cell fails, and otherwise keeps every result in place |
| Trend.RequestPointsSpec | pdf_generator.py:314-315 | the points are exactly the converted 服务请求 rows; the conversion fails exactly when some rate, of any type, is no number |
| Trend.FirstRate | pdf_generator.py:324-330 | the rate is None exactly when the team has no row in that month, and otherwise is the rate of the first matching row |
| Trend.Months | pdf_generator.py:317 | x holds every month of a point once, in strictly increasing order |
| Trend.TeamGrid | pdf_generator.py:317-332 | the loops give x, one distinct line per team, and each series' j-th value is the team's rate for month j |
| Trend.Series | pdf_generator.py:322-331 | the inner loop gives one value per month, the team's first rate or None |
| Trend.RollupRatesRead | pdf_generator.py:314 | on a team rollup the conversion never fails: every 工单解决率 reads as a number |
| DataTables.CellText | pdf_generator.py:203-208 | where a table decodes, a byte string shows its decoded text; every other cell, and every cell of a table that does not decode, prints with str() |
| DataTables.BytesShownDecoded | itop_report_20250110.py:1250-1255 | a byte string reads like the text it encodes exactly in the tables that decode: all of Latest's, and only the two KPI tables in Dated |
| DataTables.IntCellDigits | pdf_generator.py:208 | an integer cell shows the digits of its value |
| DataTables.DataTable.constructor | pdf_generator.py:199 | Table(data) stores each value of data at its position |
| DataTables.DataTable.WrapCells | pdf_generator.py:203-208 | after the nested loops every cell (i, j) is the paragraph of data[i][j]'s text |
| DataTables.DataTable.WrapRow | pdf_generator.py:204-208 | the inner loop rewrites row i and leaves every other row unchanged |
| DataTables.CreateDataTable | pdf_generator.py:171-210 | a fresh table of the data's shape, every cell showing its text |
| DataTables.TableTexts | pdf_generator.py:203-208 | the shown texts have the shape of the data |
| DataTables.ShownTexts | pdf_generator.py:203-208 | the built table shows exactly TableTexts of its data |
| DataTables.DataTableTexts | pdf_generator.py:171-210 | the texts of the table _create_data_table builds are TableTexts of the data |
| Report.TableData | pdf_generator.py:309 | the header row followed by the frame's rows is rectangular |
| Report.TableShowsFrame | pdf_generator.py:309-310 | the table shows the column names on its first row and each row's cells below, in order |
| Report.ColumnIndex | pdf_generator.py:314 | a column lookup fails (KeyError) exactly when no column has that name |
| Report.BreakdownConsistent | itop_report.py:161-174 | every status query's row is consistent: the sums are NULL exactly when the total is 0, resolved and unresolved split the total, and closed is part of resolved |
| Report.ShareSentences | pdf_generator.py:226-234 | a request or incident paragraph is three normal-style sentences |
| Report.RequestPie | pdf_generator.py:239-242 | with tickets, the request pie always has its three labels |
| Report.RequestSection | pdf_generator.py:214-247 | the heading first, a spacer last, and a pie exactly when the query gave a row with tickets; otherwise heading, notice, spacer |
| Report.RequestSectionShows | pdf_generator.py:226-242 | with tickets, the part shows the narrative's sentences and the breakdown's pie |
| Report.Notice | pdf_generator.py:243-246 | without tickets the part shows one normal-style notice |
| Report.ChangeSentences | pdf_generator.py:290-291 | the change paragraph is two normal-style sentences |
| Report.ChangePie | pdf_generator.py:296-299 | with changes, the change pie has its two labels |
| Report.ChangeSection | pdf_generator.py:280-304 | the change heading first, a spacer last, and a pie exactly when there are changes |
| Report.ChangeSectionShows | pdf_generator.py:290-299 | with changes, the part shows the narrative's two sentences and the breakdown's pie |
| Report.RequestPieBounded | pdf_generator.py:239-242 | every request pie label is at most 100.0%, and the closed label never exceeds the resolved one |
| Report.KpiRates | pdf_generator.py:351 | the KPI总计 conversion, when it succeeds, gives one rate per row |
| Report.KpiMonths | pdf_generator.py:353 | one category per row |
| Report.KpiLabels | pdf_generator.py:352-353 | the single KPI series gets one label per month, each reading back as its rate |
| Report.TeamStats | pdf_generator.py:306-339 | _add_team_stats succeeds exactly when the chart can be drawn, and then appends the table, the subtitle, the trend chart of the frame's service request points (TrendChart: sorted months, one line per team, FirstRate values) and a spacer |
| Report.TeamChart | pdf_generator.py:313-336 | the chart exists exactly when the points convert and the teams do not outnumber the colours, and it is the trend chart of those points |
| Report.KpiStats | pdf_generator.py:341-358 | _add_kpi_stats succeeds exactly when KPI总计 converts and 月份 exists, and then appends the title, the table, a subtitle, the chart with the months as categories and KPI总计 as its only labelled line, and a spacer |
| Report.KpiLine | pdf_generator.py:350-353 | the KPI chart has the months as categories and KPI总计 as its only line |
| Report.ChartOfGrid | pdf_generator.py:317-334 | the line chart drawn from TeamGrid's results is the trend chart of the points |
| Report.LineNames | pdf_generator.py:138-141 | every team has its line, and no two lines share a name |
| Report.FrameSection | pdf_generator.py:397-403 | a listing is its heading, then its table (exactly when the frame has rows) or a notice, then a spacer |
| Report.GeneratePdf | pdf_generator.py:360-432 | the PDF is produced exactly when every part renders, and is the opening, the team part, the three listings and the two KPI parts, in this order, each chart being the trend chart or the KPI总计 chart of its frame |

## Left out

- The database connection, the driver, Streamlit, plotly, and reportlab's
  drawing, fonts, styles, colour-name lookup and page layout. The model
  keeps the elements the renderer appends, not their pixels.
- `doc.build` failures. `GeneratePdf` returns `None` only where a part
  raises (a missing column, an unreadable rate, more teams than colours).
- SQL details:
  - string quoting and collation of names;
  - which row MySQL picks for a non-aggregated column (the model takes the
    group's first row);
  - `AVG` over the textual rate cells of the KPI pivot. The model keeps
    the list of texts a cell averages. MySQL reads '85.00%' as the number
    85, and `CONCAT(AVG(...), '%')` then prints '85%', not '85.00%';
  - the intermediate precision of MySQL's division and AVG (rates and
    averages are exact rationals, rounded once).
- Binary floating point. Python's `'%.2f'`/`'%.1f'` are modelled on the
  exact rational, so a float that lands just beside a tie may print the
  other way.
- `{x:g}` counts in the narrative sentences for values of a million or more.
- Years below 1000 in labels, and the Unicode/UTF-8 decoding of byte
  strings. A byte cell carries its decoded text.
- Reportlab Paragraph markup errors on cell texts.
- `sorted()` over a mixed-type column, which would raise TypeError.
- Duplicate column names in a frame: lookups take the first.
- DataTables.StrOf: `str()` of a byte string is shown as `b'` + its text +
  `'`. That is Python's form only for ASCII text without quotes or
  backslashes; other bytes print as `\xNN` escapes, and a text with a
  quote changes the delimiters. The cell keeps its decoded text, not its
  bytes.
- DataTables.StrOf: cells are the values as the query returns them.
  pandas' `read_sql` turns DECIMAL columns into floats, so a SUM count or
  a ROUND duration prints as '5.0' or '12.5', and a NULL among them as
  'nan', where the model prints '5.00' and 'None'.
- Text.ParseRate: Python's `float()` is modelled only on texts of digits
  with at most two decimals, which is every text the queries produce
  (`ROUND(..., 2)`). Other texts float() accepts, such as '33.333', '-1',
  '1e2' or ' 5', read as failures here.
- Listings.OverdueEntry: its two averages divide each duration by 60
  inside AVG (itop_report.py:452-453), so MySQL first rounds each quotient
  to four decimals. The model averages the exact quotients and rounds
  once; the two can differ only when a group's mean lies within 0.00005
  minutes of a half hundredth.
- Listings.LeadingDigits: `CASE WHEN tr.status` is modelled by the status's
  leading digits being non-zero, which is MySQL's reading of such a text
  for the statuses that occur, not its full numeric conversion.
- Report.GeneratePdf: evaluates every part before checking whether one
  failed, where the source stops at the first exception. The parts are
  pure, so the outcome is the same.
- The Dated version's `generate_pdf`. It inlines its own copies of the
  same steps: the same title rule (itop_report_20250110.py:935-938), an
  extra spacer after the team chart, and the heading "3. 按照工程师统计".
  Only its differences that reach the modelled functions are carried:
  which tables decode byte strings (DataTables.Decodes) and the 29-colour
  palette.
- The dashboard's on-screen tables and plotly charts, except the
  trend-chart condition (Render.DrawTrend) and the period line, which
  uses the same rule as Render.Title.
- The iteration order of Python sets and dictionaries is a free choice in
  the model, not CPython's hash order.

## Findings

| source | as written | input that shows it | evidently intended | confidence | as-written member | corrected member |
|---|---|---|---|---|---|---|
| itop_report.py:473 | Infra discovery keys by `COALESCE(s.name, COALESCE(s2.name, '未分类'))`, parent first, while the pivot it feeds keys by sub-service first (line 518). A column named after a parent service matches only tickets without a sub-service. A ticket with one falls into no column and not into '未分类'. Rows of one month that differ only in the service become identical all-NULL rows, and `UNION` (line 591) merges them. | Two resolved requests in January 2025, both under parent service 网络, with sub-services A and B. The month row and the '总计' row each count 1 ticket instead of 2. | discover with the pivot's own key, as the App query (line 627) and the newer version (itop_report_20250110.py:620) do | not executed | KpiFinding.LatestInfraUndercounts | Kpi.CorrectedKpiExact |
