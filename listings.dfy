/**
 * The two ticket listings of the report: every unresolved ticket of the
 * period (get_unresolved_tickets), and the overdue service requests
 * grouped by status (get_overdue_tickets). The unresolved listing is the
 * same in both versions; the overdue listing differs in the breach flags
 * it filters on.
 */
module Listings {
  import opened Wrappers
  import opened Seqs
  import opened Text
  import opened Calendar
  import opened Tickets
  import opened Measures

  // ---------------------------------------------------------------------
  // 未解决的工单.

  /** 工单号, 标题, 开始时间, 状态, 发起人, 团队名称, 办理人. */
  datatype UnresolvedRow = UnresolvedRow(
    ref: string, title: string, start: DateTime, status: string,
    caller: string, team: Option<string>, agent: string)

  /**
   * One ticket's row. The CASE over the three detail tables yields the
   * status of the one table the ticket has a row in; the caller and the
   * agent go through `person JOIN contact` under a LEFT JOIN, the team is
   * any contact with the team id.
   */
  function UnresolvedEntry(dir: Directory, t: Ticket): (r: UnresolvedRow)
    ensures r.ref == t.ref && r.title == t.title && r.status == t.status && r.start == t.start
    ensures PersonName(dir, t.callerId).Some? ==> r.caller == PersonName(dir, t.callerId).value
    ensures PersonName(dir, t.callerId).None? ==> r.caller == " "
    ensures r.team == ContactName(dir, t.teamId)
    ensures r.team.Some? <==> t.teamId.Some? && t.teamId.value in dir.contacts
    ensures PersonName(dir, t.agentId).Some? ==> r.agent == PersonName(dir, t.agentId).value
    ensures PersonName(dir, t.agentId).None? ==> r.agent == " "
  {
    UnresolvedRow(
      t.ref, t.title, t.start, t.status,
      PersonNameOrBlank(dir, t.callerId), ContactName(dir, t.teamId), PersonNameOrBlank(dir, t.agentId))
  }

  /** The WHERE clause: status NOT IN ('closed', 'new', 'resolved') and started in the period. */
  function Unresolved(start: Date, end: Date): Ticket -> bool
  {
    (t: Ticket) => IsUnresolved(t.status) && InPeriod(t.start, start, end)
  }

  /** get_unresolved_tickets; the query has no ORDER BY, so rows keep table order. */
  function UnresolvedTickets(dir: Directory, rows: seq<Ticket>, start: Date, end: Date): (r: seq<UnresolvedRow>)
    ensures |r| == Count(rows, Unresolved(start, end))
  {
    FilterLength(rows, Unresolved(start, end));
    Map(Filter(rows, Unresolved(start, end)), (t: Ticket) => UnresolvedEntry(dir, t))
  }

  /**
   * Every listed row is an unresolved ticket of the period, shown with its
   * own status and start, and every such ticket is listed.
   */
  lemma UnresolvedListingExact(dir: Directory, rows: seq<Ticket>, start: Date, end: Date)
    ensures forall row :: row in UnresolvedTickets(dir, rows, start, end) ==>
      IsUnresolved(row.status) && InPeriod(row.start, start, end)
      && row.status != NewStatus && !IsResolved(row.status)
    ensures forall t :: t in rows && IsUnresolved(t.status) && InPeriod(t.start, start, end) ==>
      UnresolvedEntry(dir, t) in UnresolvedTickets(dir, rows, start, end)
  {
    var ts := Filter(rows, Unresolved(start, end));
    var r := UnresolvedTickets(dir, rows, start, end);
    assert r == Map(ts, (t: Ticket) => UnresolvedEntry(dir, t));
    forall row | row in r
      ensures IsUnresolved(row.status) && InPeriod(row.start, start, end)
    {
      var i :| 0 <= i < |r| && r[i] == row;
      assert ts[i] in ts;
    }
    forall t | t in rows && IsUnresolved(t.status) && InPeriod(t.start, start, end)
      ensures UnresolvedEntry(dir, t) in r
    {
      assert t in ts;
      var i :| 0 <= i < |ts| && ts[i] == t;
      assert r[i] == UnresolvedEntry(dir, t);
    }
  }

  // ---------------------------------------------------------------------
  // 超时工单.

  /**
   * MySQL's truth value of a string in `CASE WHEN tr.status`: the number
   * its leading digits spell, true when non-zero. A status that starts
   * with a letter (every status iTop uses) is false.
   */
  predicate StatusTruthy(s: string)
  {
    DigitsValue(LeadingDigits(s)) != 0
  }

  function LeadingDigits(s: string): (r: string)
    ensures AllDigits(r) && |r| <= |s| && r == s[..|r|]
    ensures s != [] && !IsDigit(s[0]) ==> r == []
  {
    if s == [] || !IsDigit(s[0]) then [] else [s[0]] + LeadingDigits(s[1..])
  }

  /**
   * 工单号, 标题, 状态, 开始日期, 最后日期, the two overruns in minutes,
   * 发起人, 团队名称, 办理人, 实际响应时间, 实际解决时间, 响应最后期限,
   * 解决最后期限 and the two average durations of one status group.
   */
  datatype OverdueRow = OverdueRow(
    ref: Option<string>, title: string, status: string, start: DateTime, lastUpdate: Option<DateTime>,
    ttoOverrun: Option<int>, ttrOverrun: Option<int>,
    caller: Option<string>, team: Option<string>, agent: Option<string>,
    assignedAt: Option<DateTime>, resolvedAt: Option<DateTime>,
    ttoDeadline: Option<DateTime>, ttrDeadline: Option<DateTime>,
    avgResponse: Option<int>, avgResolution: Option<int>)

  /**
   * The WHERE clause. The LEFT JOIN leaves the flags NULL on every ticket
   * without a request record, so only service requests pass. The latest
   * version tests the 100% flags with `= 1`; the dated one tests the 75%
   * response flag with `= 1` and the 75% resolution flag for truth.
   */
  function Overdue(fork: Fork, start: Date, end: Date): Ticket -> bool
  {
    (t: Ticket) =>
      && t.cls == UserRequest && InPeriod(t.start, start, end)
      && match fork
         case Latest => IsOne(t.sla.tto100) || IsOne(t.sla.ttr100)
         case Dated => IsOne(t.sla.tto75) || IsTruthy(t.sla.ttr75)
  }

  function StatusOf(t: Ticket): string
  {
    t.status
  }

  function ResponseSeconds(t: Ticket): Option<int>
  {
    SecondsBetween(t.sla.ttoStarted, t.sla.ttoStopped)
  }

  function ResolutionSeconds(t: Ticket): Option<int>
  {
    SecondsBetween(t.sla.ttoStopped, t.sla.ttrStopped)
  }

  /**
   * The row of one `GROUP BY tr.status` group. The columns that are not
   * aggregated come from the group's first ticket; the averages are over
   * the whole group. 发起人 and 办理人 are written with the same
   * expression, over the agent.
   */
  function OverdueEntry(dir: Directory, g: seq<Ticket>): (r: OverdueRow)
    requires g != []
    ensures r.status == g[0].status && r.title == g[0].title && r.start == g[0].start
    ensures r.lastUpdate == g[0].lastUpdate
    ensures r.assignedAt == g[0].sla.assignmentDate && r.resolvedAt == g[0].sla.resolutionDate
    ensures r.ttoDeadline == g[0].sla.tto100Deadline && r.ttrDeadline == g[0].sla.ttr100Deadline
    ensures r.ttoOverrun.Some? <==> g[0].sla.tto100Overrun.Some?
    ensures r.ttoOverrun.Some? ==> RoundsTo(g[0].sla.tto100Overrun.value * 100, 60, r.ttoOverrun.value)
    ensures r.ttrOverrun.Some? <==> g[0].sla.ttr100Overrun.Some?
    ensures r.ttrOverrun.Some? ==> RoundsTo(g[0].sla.ttr100Overrun.value * 100, 60, r.ttrOverrun.value)
    ensures StatusTruthy(g[0].status) <==> r.ref.Some?
    ensures r.team.Some? == r.ref.Some? && r.agent.Some? == r.ref.Some? && r.caller == r.agent
    ensures r.ref.Some? ==> r.ref.value == g[0].ref && r.team.value == ContactName(dir, g[0].teamId).GetOr("")
    ensures r.agent.Some? ==> r.agent.value == PersonNameOrBlank(dir, g[0].agentId)
    ensures r.avgResponse.None? <==> forall i :: 0 <= i < |g| ==> ResponseSeconds(g[i]).None?
    ensures r.avgResponse.Some? ==> var v := NonNull(Map(g, ResponseSeconds));
      RoundsTo(SumInts(v) * 100, |v| * 60, r.avgResponse.value)
    ensures r.avgResolution.None? <==> forall i :: 0 <= i < |g| ==> ResolutionSeconds(g[i]).None?
    ensures r.avgResolution.Some? ==> var v := NonNull(Map(g, ResolutionSeconds));
      RoundsTo(SumInts(v) * 100, |v| * 60, r.avgResolution.value)
  {
    var t := g[0];
    var shown := StatusTruthy(t.status);
    var agent := PersonNameOrBlank(dir, t.agentId);
    OverdueRow(
      if shown then Some(t.ref) else None, t.title, t.status, t.start, t.lastUpdate,
      Minutes(t.sla.tto100Overrun), Minutes(t.sla.ttr100Overrun),
      if shown then Some(agent) else None,
      if shown then Some(ContactName(dir, t.teamId).GetOr("")) else None,
      if shown then Some(agent) else None,
      t.sla.assignmentDate, t.sla.resolutionDate, t.sla.tto100Deadline, t.sla.ttr100Deadline,
      GroupAvg(g, ResponseSeconds), GroupAvg(g, ResolutionSeconds))
  }

  /**
   * ROUND(AVG(TIMESTAMPDIFF(SECOND, from, to) / 60), 2) over a group:
   * NULL when every duration is, else their mean in minutes, rounded.
   */
  function GroupAvg(g: seq<Ticket>, secs: Ticket -> Option<int>): (r: Option<int>)
    ensures r.None? <==> forall i :: 0 <= i < |g| ==> secs(g[i]).None?
    ensures r.Some? ==> var v := NonNull(Map(g, secs));
      RoundsTo(SumInts(v) * 100, |v| * 60, r.value)
  {
    AvgMinutes(Map(g, secs))
  }

  /** The tickets of each status group are qualifying tickets with that status. */
  lemma StatusGroup(ts: seq<Ticket>, ks: seq<string>, j: nat)
    requires ks == KeysOf(ts, StatusOf) && j < |ks|
    ensures WithKey(ts, StatusOf, ks[j]) != []
    ensures WithKey(ts, StatusOf, ks[j])[0] in ts && WithKey(ts, StatusOf, ks[j])[0].status == ks[j]
  {
    var i :| 0 <= i < |ts| && StatusOf(ts[i]) == ks[j];
    assert ts[i] in WithKey(ts, StatusOf, ks[j]);
    var g := WithKey(ts, StatusOf, ks[j]);
    assert g[0] in g;
  }

  function GroupEntry(dir: Directory, ts: seq<Ticket>, ks: seq<string>, j: nat): (r: OverdueRow)
    requires ks == KeysOf(ts, StatusOf) && j < |ks|
    ensures r.status == ks[j]
    ensures exists t :: t in ts && t.status == ks[j] && r.title == t.title && r.start == t.start
  {
    StatusGroup(ts, ks, j);
    var g := WithKey(ts, StatusOf, ks[j]);
    OverdueEntry(dir, g)
  }

  /**
   * get_overdue_tickets: one row per status among the qualifying tickets.
   * The query has no ORDER BY; the model lists the statuses in the order
   * they first appear.
   */
  function OverdueTickets(fork: Fork, dir: Directory, rows: seq<Ticket>, start: Date, end: Date): (r: seq<OverdueRow>)
    ensures |r| <= Count(rows, Overdue(fork, start, end))
  {
    var ts := Filter(rows, Overdue(fork, start, end));
    var ks := KeysOf(ts, StatusOf);
    FilterLength(rows, Overdue(fork, start, end));
    seq(|ks|, j requires 0 <= j < |ks| => GroupEntry(dir, ts, ks, j))
  }

  /** The listing has at most one row per status. */
  lemma OverdueOnePerStatus(fork: Fork, dir: Directory, rows: seq<Ticket>, start: Date, end: Date)
    ensures var r := OverdueTickets(fork, dir, rows, start, end);
      forall i, j :: 0 <= i < j < |r| ==> r[i].status != r[j].status
  {
    var ts := Filter(rows, Overdue(fork, start, end));
    var ks := KeysOf(ts, StatusOf);
    var r := OverdueTickets(fork, dir, rows, start, end);
    forall i, j | 0 <= i < j < |r| ensures r[i].status != r[j].status {
      assert r[i] == GroupEntry(dir, ts, ks, i) && r[j] == GroupEntry(dir, ts, ks, j);
      assert ks[i] != ks[j];
    }
  }

  /** `row` carries the status, title and start of a qualifying ticket. */
  predicate OverdueWitness(fork: Fork, rows: seq<Ticket>, start: Date, end: Date, row: OverdueRow)
  {
    exists t :: (t in rows && Overdue(fork, start, end)(t) && t.status == row.status && t.title == row.title && t.start == row.start)
  }

  /** Every row's status, title and start are those of a qualifying ticket. */
  lemma OverdueRowsOfTickets(fork: Fork, dir: Directory, rows: seq<Ticket>, start: Date, end: Date)
    ensures var r := OverdueTickets(fork, dir, rows, start, end);
      forall i :: 0 <= i < |r| ==> OverdueWitness(fork, rows, start, end, r[i])
  {
    var ts := Filter(rows, Overdue(fork, start, end));
    var ks := KeysOf(ts, StatusOf);
    var r := OverdueTickets(fork, dir, rows, start, end);
    forall i | 0 <= i < |r| ensures OverdueWitness(fork, rows, start, end, r[i]) {
      assert r[i] == GroupEntry(dir, ts, ks, i);
      var t :| t in ts && t.status == ks[i] && r[i].title == t.title && r[i].start == t.start;
      assert t in rows && Overdue(fork, start, end)(t);
    }
  }

  /** Every qualifying ticket's status has its row. */
  lemma OverdueTicketsCovered(fork: Fork, dir: Directory, rows: seq<Ticket>, start: Date, end: Date)
    ensures var r := OverdueTickets(fork, dir, rows, start, end);
      forall t :: t in rows && Overdue(fork, start, end)(t) ==>
        exists i :: 0 <= i < |r| && r[i].status == t.status
  {
    var ts := Filter(rows, Overdue(fork, start, end));
    var ks := KeysOf(ts, StatusOf);
    var r := OverdueTickets(fork, dir, rows, start, end);
    forall t | t in rows && Overdue(fork, start, end)(t) ensures exists i :: 0 <= i < |r| && r[i].status == t.status {
      assert t in ts;
      var k :| 0 <= k < |ts| && ts[k] == t;
      assert StatusOf(ts[k]) in ks;
      var i :| 0 <= i < |ks| && ks[i] == t.status;
      assert r[i] == GroupEntry(dir, ts, ks, i);
    }
  }

  /**
   * Only service requests that breach the version's flags, started in the
   * period, are listed: an incident or a change never is.
   */
  lemma OverdueOnlyRequests(fork: Fork, t: Ticket, start: Date, end: Date)
    requires Overdue(fork, start, end)(t)
    ensures t.cls == UserRequest && InPeriod(t.start, start, end)
    ensures fork == Latest ==> t.sla.tto100 == Some(1) || t.sla.ttr100 == Some(1)
    ensures fork == Dated ==> t.sla.tto75 == Some(1) || (t.sla.ttr75.Some? && t.sla.ttr75.value != 0)
  {
  }

  /**
   * 发起人 and 办理人 are the same expression, so they always agree; and
   * for a status spelled with a letter first, as iTop's are, the CASE on
   * the status makes 工单号, 发起人, 团队名称 and 办理人 all NULL.
   */
  lemma OverdueCallerIsAgent(fork: Fork, dir: Directory, rows: seq<Ticket>, start: Date, end: Date)
    ensures forall row :: row in OverdueTickets(fork, dir, rows, start, end) ==>
      && row.caller == row.agent
      && (row.status != [] && !IsDigit(row.status[0]) ==>
            row.ref.None? && row.caller.None? && row.team.None? && row.agent.None?)
  {
    var ts := Filter(rows, Overdue(fork, start, end));
    var ks := KeysOf(ts, StatusOf);
    var r := OverdueTickets(fork, dir, rows, start, end);
    forall row | row in r
      ensures row.caller == row.agent
      ensures row.status != [] && !IsDigit(row.status[0]) ==>
        row.ref.None? && row.caller.None? && row.team.None? && row.agent.None?
    {
      var j :| 0 <= j < |r| && r[j] == row;
      StatusGroup(ts, ks, j);
      var g := WithKey(ts, StatusOf, ks[j]);
      assert row == OverdueEntry(dir, g);
    }
  }
}
