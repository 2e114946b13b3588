/**
 * The monthly rollups by team (get_team_stats) and by agent
 * (get_person_stats). Both read the same UNION ALL of requests, incidents
 * and changes, join each row to a name, group by month, name and ticket
 * type, and order the groups by month descending, type descending and name.
 * The two versions of the report differ in the SLA threshold of the breach
 * flags and in the 已解决 column, which only the latest version has.
 */
module Rollups {
  import opened Wrappers
  import opened Seqs
  import opened Text
  import opened Calendar
  import opened Tickets
  import opened Measures

  /** The `ticket_type` literal of each branch of the UNION ALL. */
  datatype TicketType = RequestType | IncidentType | ChangeType

  function TypeLabel(tt: TicketType): string
  {
    match tt
    case RequestType => "服务请求"
    case IncidentType => "事件"
    case ChangeType => "变更"
  }

  function TypeOf(cls: TicketClass): TicketType
  {
    match cls
    case UserRequest => RequestType
    case Incident => IncidentType
    case Change => ChangeType
  }

  /** Position under `ticket_type DESC`: 服 (U+670D), then 变 (U+53D8), then 事 (U+4E8B). */
  function TypeRank(tt: TicketType): nat
  {
    match tt
    case RequestType => 2
    case ChangeType => 1
    case IncidentType => 0
  }

  /** Ordering the type labels as text is ordering their ranks. */
  lemma TypeRankOrdersLabels(a: TicketType, b: TicketType)
    ensures StrLt(TypeLabel(a), TypeLabel(b)) <==> TypeRank(a) < TypeRank(b)
  {
    var la, lb := TypeLabel(a), TypeLabel(b);
    if a == b {
      StrLtIrreflexive(la);
    } else {
      assert TypeLabel(RequestType)[0] == '服' && TypeLabel(IncidentType)[0] == '事';
      assert TypeLabel(ChangeType)[0] == '变';
      assert '事' < '变' < '服';
      assert StrLt(la, lb) == (la[0] < lb[0]);
    }
  }

  // ---------------------------------------------------------------------
  // The UNION ALL subquery and the join to a name.

  /**
   * One row of the subquery. Requests and incidents carry their breach
   * flags and their response and resolution seconds; a change carries 0
   * for both flags, no response time and start_date to end_date as its
   * resolution time.
   */
  datatype SubRow = SubRow(
    ttype: TicketType, status: string, tto: Flag, ttr: Flag,
    response: Option<int>, resolution: Option<int>)

  /**
   * Whether a ticket counts as 超时工单: `tto_passed = 1 OR ttr_passed = 1`,
   * read from the 100% flags in the latest version and from the 75% flags
   * in the dated one; a change never does.
   */
  predicate Breached(fork: Fork, t: Ticket)
  {
    && t.cls != Change
    && match fork
       case Latest => IsOne(t.sla.tto100) || IsOne(t.sla.ttr100)
       case Dated => IsOne(t.sla.tto75) || IsOne(t.sla.ttr75)
  }

  function BreachedOf(fork: Fork): Ticket -> bool
  {
    (t: Ticket) => Breached(fork, t)
  }

  /** 响应时间 in seconds: TTO start to TTO stop; a change has none. */
  function ResponseTime(t: Ticket): Option<int>
  {
    if t.cls == Change then None else SecondsBetween(t.sla.ttoStarted, t.sla.ttoStopped)
  }

  /**
   * 解决时间 in seconds: TTO stop to TTR stop for requests and incidents,
   * start_date to end_date for a change.
   */
  function ResolutionTime(t: Ticket): Option<int>
  {
    if t.cls == Change then SecondsBetween(Some(t.start), t.end)
    else SecondsBetween(t.sla.ttoStopped, t.sla.ttrStopped)
  }

  predicate TicketUnresolved(t: Ticket)
  {
    IsUnresolved(t.status)
  }

  /**
   * One ticket's subquery row: its type and status, the version's breach
   * flags (100% in the latest version, 75% in the dated one) or 0 for a
   * change, and its response and resolution seconds.
   */
  function ToSubRow(fork: Fork, t: Ticket): (r: SubRow)
    ensures r.ttype == TypeOf(t.cls) && r.status == t.status
    ensures r.ttype == ChangeType ==> r.tto == Some(0) && r.ttr == Some(0)
    ensures fork == Latest && t.cls != Change ==> r.tto == t.sla.tto100 && r.ttr == t.sla.ttr100
    ensures fork == Dated && t.cls != Change ==> r.tto == t.sla.tto75 && r.ttr == t.sla.ttr75
    ensures SubOverdue(r) <==> Breached(fork, t)
    ensures r.response == ResponseTime(t) && r.resolution == ResolutionTime(t)
  {
    match t.cls
    case Change =>
      SubRow(ChangeType, t.status, Some(0), Some(0), None, SecondsBetween(Some(t.start), t.end))
    case _ =>
      var (tto, ttr) := if fork == Latest then (t.sla.tto100, t.sla.ttr100) else (t.sla.tto75, t.sla.ttr75);
      SubRow(TypeOf(t.cls), t.status, tto, ttr,
        SecondsBetween(t.sla.ttoStarted, t.sla.ttoStopped),
        SecondsBetween(t.sla.ttoStopped, t.sla.ttrStopped))
  }

  function SubRowOf(fork: Fork): Ticket -> SubRow
  {
    (t: Ticket) => ToSubRow(fork, t)
  }

  /**
   * Whose rollup: the team (`team_id` joined to a contact whose finalclass
   * is 'Team') or the agent (`agent_id` joined to agent_info, a person
   * with its contact).
   */
  datatype Owner = ByTeam | ByAgent

  function OwnerName(dir: Directory, owner: Owner, t: Ticket): Option<string>
  {
    match owner
    case ByTeam => TeamName(dir, t.teamId)
    case ByAgent => PersonName(dir, t.agentId)
  }

  /** The tickets that reach the GROUP BY: in scope and joined to a name. */
  function Attributed(dir: Directory, owner: Owner, start: Date, end: Date): Ticket -> bool
  {
    (t: Ticket) => InScope(t, start, end) && OwnerName(dir, owner, t).Some?
  }

  /** GROUP BY DATE_FORMAT(start_date, '%Y-%m'), the name, ticket_type. */
  datatype GroupKey = GroupKey(month: int, name: string, ttype: TicketType)

  function Key(dir: Directory, owner: Owner, t: Ticket): GroupKey
  {
    GroupKey(MonthIndex(t.start.date), OwnerName(dir, owner, t).GetOr(""), TypeOf(t.cls))
  }

  function KeyOf(dir: Directory, owner: Owner): Ticket -> GroupKey
  {
    (t: Ticket) => Key(dir, owner, t)
  }

  // ---------------------------------------------------------------------
  // One group.

  /** A duration cell: 'N/A' for changes' response times, else a nullable number. */
  datatype Duration = NotApplicable | Value(minutes: Option<int>)

  /**
   * One output row; minutes are in hundredths. The two rate columns are
   * computed from the row's own counts, as the SELECT list computes them
   * from the same COUNT and SUM.
   */
  datatype RollupRow = RollupRow(
    month: string, name: string, ttype: TicketType,
    count: nat, resolved: Option<nat>, unresolved: nat, overdue: nat,
    avgResponse: Duration, avgResolution: Option<int>,
    maxResponse: Duration, maxResolution: Option<int>)
  {
    /** 工单解决率: the share of the group not unresolved, in percent to two decimals. */
    function ResolutionRate(): (r: Option<string>)
      requires unresolved <= count
      ensures r.Some? <==> count > 0
      ensures r.Some? ==>
        ParseRate(r.value).Some? && RoundsTo((count - unresolved) * 10000, count, ParseRate(r.value).value)
      ensures r.Some? ==> var h := ParseRate(r.value);
        && h.Some? && h.value <= 10000
        && (unresolved == 0 ==> h.value == 10000)
        && (unresolved == count ==> h.value == 0)
    {
      RateText(count - unresolved, count)
    }

    /** 工单及时率: the share of the group not overdue, in percent to two decimals. */
    function TimelyRate(): (r: Option<string>)
      requires overdue <= count
      ensures r.Some? <==> count > 0
      ensures r.Some? ==>
        ParseRate(r.value).Some? && RoundsTo((count - overdue) * 10000, count, ParseRate(r.value).value)
      ensures r.Some? ==> var h := ParseRate(r.value);
        && h.Some? && h.value <= 10000
        && (overdue == 0 ==> h.value == 10000)
        && (overdue == count ==> h.value == 0)
    {
      RateText(count - overdue, count)
    }
  }

  predicate SubResolved(s: SubRow)
  {
    IsResolved(s.status)
  }

  predicate SubUnresolved(s: SubRow)
  {
    IsUnresolved(s.status)
  }

  /** `tto_passed = 1 OR ttr_passed = 1` at the fork's threshold. */
  predicate SubOverdue(s: SubRow)
  {
    IsOne(s.tto) || IsOne(s.ttr)
  }

  function ResponseOf(s: SubRow): Option<int>
  {
    s.response
  }

  function ResolutionOf(s: SubRow): Option<int>
  {
    s.resolution
  }

  /**
   * What every row of the rollup satisfies: a non-empty group whose
   * unresolved and overdue tickets are among its tickets; in the latest
   * version 已解决 is the rest of the group, in the dated one the column is
   * absent; changes are never overdue and
   * have 'N/A' response times, other types have numbers; an average
   * duration is present exactly when the maximum is, and never above it.
   */
  predicate WellFormed(fork: Fork, r: RollupRow)
  {
    && r.count > 0
    && r.unresolved <= r.count && r.overdue <= r.count
    && (fork == Latest ==> r.resolved == Some(r.count - r.unresolved))
    && (fork == Dated ==> r.resolved.None?)
    && (r.ttype == ChangeType ==> r.overdue == 0)
    && (r.ttype == ChangeType <==> r.avgResponse.NotApplicable?)
    && (r.ttype == ChangeType <==> r.maxResponse.NotApplicable?)
    && Agree(r.avgResolution, r.maxResolution)
    && (r.avgResponse.Value? && r.maxResponse.Value? ==> Agree(r.avgResponse.minutes, r.maxResponse.minutes))
  }

  /** AVG and MAX of one column are NULL together, and AVG is never above MAX. */
  lemma DurationsAgree(s: seq<Option<int>>)
    ensures Agree(AvgMinutes(s), MaxMinutes(s))
  {
    if AvgMinutes(s).Some? {
      AvgAtMostMax(s);
    }
  }

  /** The subquery rows of a group carry their tickets' status and type. */
  lemma SubRowsOf(fork: Fork, g: seq<Ticket>)
    ensures var subs := Map(g, SubRowOf(fork));
      forall i :: 0 <= i < |g| ==>
        && subs[i].status == g[i].status && subs[i].ttype == TypeOf(g[i].cls)
        && (subs[i].ttype == ChangeType ==> subs[i].tto == Some(0) && subs[i].ttr == Some(0))
  {
    var subs := Map(g, SubRowOf(fork));
    forall i | 0 <= i < |g| ensures subs[i] == ToSubRow(fork, g[i]) {
    }
  }

  /** The aggregates over a group's subquery rows are those over its tickets. */
  lemma SubRowsTally(fork: Fork, g: seq<Ticket>)
    ensures var subs := Map(g, SubRowOf(fork));
      && Count(subs, SubUnresolved) == Count(g, TicketUnresolved)
      && Count(subs, SubOverdue) == Count(g, BreachedOf(fork))
      && Map(subs, ResponseOf) == Map(g, ResponseTime)
      && Map(subs, ResolutionOf) == Map(g, ResolutionTime)
  {
    var f := SubRowOf(fork);
    CountMap(g, f, SubUnresolved, TicketUnresolved);
    CountMap(g, f, SubOverdue, BreachedOf(fork));
    MapCompose(g, f, ResponseOf, ResponseTime);
    MapCompose(g, f, ResolutionOf, ResolutionTime);
  }

  /**
   * The counts of one group's subquery rows: 已解决 and 未解决 split the
   * group, and a group of changes has no overdue ticket.
   */
  lemma GroupCounts(subs: seq<SubRow>, tt: TicketType)
    requires forall i :: 0 <= i < |subs| ==> subs[i].status != NewStatus && subs[i].ttype == tt
    requires forall i :: 0 <= i < |subs| ==> subs[i].ttype == ChangeType ==> subs[i].tto == Some(0) && subs[i].ttr == Some(0)
    ensures Count(subs, SubResolved) + Count(subs, SubUnresolved) == |subs|
    ensures tt == ChangeType ==> Count(subs, SubOverdue) == 0
  {
    forall i | 0 <= i < |subs| ensures SubResolved(subs[i]) <==> !SubUnresolved(subs[i]) {
      BucketsPartition(subs[i].status);
    }
    CountSplit(subs, SubResolved, SubUnresolved);
    if tt == ChangeType {
      CountNone(subs, SubOverdue);
    }
  }

  /** An average and a maximum of one duration column that agree. */
  predicate Agree(avg: Option<int>, max: Option<int>)
  {
    (avg.Some? <==> max.Some?) && (avg.Some? ==> avg.value <= max.value)
  }

  /** Assembles a row from the aggregates of its group. */
  function MakeRow(
    fork: Fork, month: string, name: string, tt: TicketType,
    count: nat, resolved: nat, unresolved: nat, overdue: nat,
    avgResponse: Option<int>, maxResponse: Option<int>,
    avgResolution: Option<int>, maxResolution: Option<int>): (r: RollupRow)
    requires count > 0 && resolved + unresolved == count && overdue <= count
    requires tt == ChangeType ==> overdue == 0
    requires Agree(avgResponse, maxResponse) && Agree(avgResolution, maxResolution)
    ensures WellFormed(fork, r)
    ensures r.month == month && r.name == name && r.ttype == tt && r.count == count
  {
    RollupRow(
      month, name, tt, count,
      if fork == Latest then Some(resolved) else None,
      unresolved, overdue,
      if tt == ChangeType then NotApplicable else Value(avgResponse),
      avgResolution,
      if tt == ChangeType then NotApplicable else Value(maxResponse),
      maxResolution)
  }

  /**
   * `row` tallies the tickets `g`: 工单数量 is their number, 未解决 the
   * unresolved among them and 超时工单 those breached at the version's
   * flags; the resolution columns are AVG and MAX of their resolution
   * seconds in minutes, and so are the response columns except for changes.
   */
  predicate Tallies(fork: Fork, g: seq<Ticket>, row: RollupRow)
  {
    && row.count == |g|
    && row.unresolved == Count(g, TicketUnresolved)
    && row.overdue == Count(g, BreachedOf(fork))
    && row.avgResolution == AvgMinutes(Map(g, ResolutionTime))
    && row.maxResolution == MaxMinutes(Map(g, ResolutionTime))
    && (row.ttype != ChangeType ==>
          && row.avgResponse == Value(AvgMinutes(Map(g, ResponseTime)))
          && row.maxResponse == Value(MaxMinutes(Map(g, ResponseTime))))
  }

  /** The output row of one group `g` of tickets, all of one month, name and type. */
  function GroupRow(fork: Fork, name: string, g: seq<Ticket>): (r: RollupRow)
    requires g != [] && ValidDate(g[0].start.date)
    requires forall i :: 0 <= i < |g| ==> g[i].status != NewStatus && TypeOf(g[i].cls) == TypeOf(g[0].cls)
    ensures WellFormed(fork, r)
    ensures r.month == MonthLabel(g[0].start.date) && r.name == name && r.ttype == TypeOf(g[0].cls)
    ensures Tallies(fork, g, r)
  {
    var tt := TypeOf(g[0].cls);
    var subs := Map(g, SubRowOf(fork));
    var responses, resolutions := Map(subs, ResponseOf), Map(subs, ResolutionOf);
    SubRowsOf(fork, g);
    SubRowsTally(fork, g);
    GroupCounts(subs, tt);
    DurationsAgree(responses);
    DurationsAgree(resolutions);
    MakeRow(
      fork, MonthLabel(g[0].start.date), name, tt, |g|,
      Count(subs, SubResolved), Count(subs, SubUnresolved), Count(subs, SubOverdue),
      AvgMinutes(responses), MaxMinutes(responses), AvgMinutes(resolutions), MaxMinutes(resolutions))
  }

  // ---------------------------------------------------------------------
  // All groups, ordered.

  /** ORDER BY month DESC, ticket_type DESC, name. */
  predicate RowBefore(a: RollupRow, b: RollupRow)
  {
    StrLt(b.month, a.month)
    || (a.month == b.month
        && (TypeRank(a.ttype) > TypeRank(b.ttype)
            || (a.ttype == b.ttype && StrLe(a.name, b.name))))
  }

  lemma RowBeforeIsTotalPreorder()
    ensures TotalPreorder(RowBefore)
  {
    forall a: RollupRow, b: RollupRow ensures RowBefore(a, b) || RowBefore(b, a) {
      StrLtTrichotomy(a.month, b.month);
      StrLtTrichotomy(a.name, b.name);
    }
    forall a: RollupRow, b: RollupRow, c: RollupRow | RowBefore(a, b) && RowBefore(b, c)
      ensures RowBefore(a, c)
    {
      if StrLt(c.month, b.month) && StrLt(b.month, a.month) {
        StrLtTransitive(c.month, b.month, a.month);
      }
      if StrLt(a.name, b.name) && StrLt(b.name, c.name) {
        StrLtTransitive(a.name, b.name, c.name);
      }
    }
  }

  predicate GroupsOf(dir: Directory, owner: Owner, ks: seq<GroupKey>, ts: seq<Ticket>)
  {
    && (forall i :: 0 <= i < |ts| ==> ValidDate(ts[i].start.date) && ts[i].status != NewStatus)
    && (forall k :: k in ks ==> exists i :: 0 <= i < |ts| && Key(dir, owner, ts[i]) == k)
  }

  /**
   * `row` is the row of the group `k` of `ts`: a well-formed row with the
   * group's name and type that tallies the group's tickets, and whose month
   * label is that of a ticket of the group.
   */
  predicate RowOfGroup(fork: Fork, dir: Directory, owner: Owner, ts: seq<Ticket>, k: GroupKey, row: RollupRow)
  {
    && WellFormed(fork, row) && row.name == k.name && row.ttype == k.ttype
    && Tallies(fork, WithKey(ts, KeyOf(dir, owner), k), row)
    && exists i :: 0 <= i < |ts| && Key(dir, owner, ts[i]) == k
         && ValidDate(ts[i].start.date) && row.month == MonthLabel(ts[i].start.date)
  }

  lemma GroupOfKey(fork: Fork, dir: Directory, owner: Owner, ks: seq<GroupKey>, ts: seq<Ticket>, j: nat)
    requires GroupsOf(dir, owner, ks, ts) && j < |ks|
    ensures var g := WithKey(ts, KeyOf(dir, owner), ks[j]);
      && g != [] && ValidDate(g[0].start.date)
      && (forall i :: 0 <= i < |g| ==> g[i].status != NewStatus && TypeOf(g[i].cls) == TypeOf(g[0].cls))
    ensures RowOfGroup(fork, dir, owner, ts, ks[j], GroupRow(fork, ks[j].name, WithKey(ts, KeyOf(dir, owner), ks[j])))
  {
    var key := KeyOf(dir, owner);
    var g := WithKey(ts, key, ks[j]);
    assert ks[j] in ks;
    var i :| 0 <= i < |ts| && key(ts[i]) == ks[j];
    assert ts[i] in g;
    assert g[0] in g;
    forall x | x in g ensures ValidDate(x.start.date) && x.status != NewStatus && key(x) == ks[j] {
      assert x in ts;
    }
    forall i | 0 <= i < |g| ensures g[i].status != NewStatus && TypeOf(g[i].cls) == TypeOf(g[0].cls) {
      assert g[i] in g;
      assert key(g[i]).ttype == TypeOf(g[i].cls);
    }
    var row := GroupRow(fork, ks[j].name, g);
    assert g[0] in ts;
    var i0 :| 0 <= i0 < |ts| && ts[i0] == g[0];
    assert key(ts[i0]) == ks[j] && row.month == MonthLabel(ts[i0].start.date);
  }

  /** `u` holds the rows of the groups `ks`, in the same order. */
  predicate RowsOfGroups(fork: Fork, dir: Directory, owner: Owner, ks: seq<GroupKey>, ts: seq<Ticket>, u: seq<RollupRow>)
  {
    |u| == |ks| && forall j :: 0 <= j < |ks| ==> RowOfGroup(fork, dir, owner, ts, ks[j], u[j])
  }

  /** The row of the `j`-th group. */
  function RowOfKey(fork: Fork, dir: Directory, owner: Owner, ks: seq<GroupKey>, ts: seq<Ticket>, j: nat): (row: RollupRow)
    requires GroupsOf(dir, owner, ks, ts) && j < |ks|
    ensures RowOfGroup(fork, dir, owner, ts, ks[j], row)
  {
    GroupOfKey(fork, dir, owner, ks, ts, j);
    GroupRow(fork, ks[j].name, WithKey(ts, KeyOf(dir, owner), ks[j]))
  }

  /** One row per key, each computed from the tickets of its group. */
  function GroupRows(fork: Fork, dir: Directory, owner: Owner, ks: seq<GroupKey>, ts: seq<Ticket>): (r: seq<RollupRow>)
    requires GroupsOf(dir, owner, ks, ts)
    ensures RowsOfGroups(fork, dir, owner, ks, ts, r)
  {
    seq(|ks|, j requires 0 <= j < |ks| => RowOfKey(fork, dir, owner, ks, ts, j))
  }

  /**
   * get_team_stats (owner ByTeam) and get_person_stats (owner ByAgent) of
   * one version over the ticket table `rows` and the period [start, end).
   */
  function Rollup(fork: Fork, dir: Directory, owner: Owner, rows: seq<Ticket>, start: Date, end: Date): (r: seq<RollupRow>)
    requires forall t :: t in rows ==> ValidDate(t.start.date)
    ensures |r| <= |rows|
  {
    var ts := Filter(rows, Attributed(dir, owner, start, end));
    var ks := KeysOf(ts, KeyOf(dir, owner));
    AttributedTickets(dir, owner, rows, start, end);
    TicketsGrouped(dir, owner, ts);
    KeysAtMostRows(ts, KeyOf(dir, owner));
    SortBy(GroupRows(fork, dir, owner, ks, ts), RowBefore)
  }

  /** The tickets that reach the GROUP BY are in scope and have a name. */
  lemma AttributedTickets(dir: Directory, owner: Owner, rows: seq<Ticket>, start: Date, end: Date)
    ensures forall t :: t in Filter(rows, Attributed(dir, owner, start, end)) ==>
      t in rows && InScope(t, start, end) && OwnerName(dir, owner, t).Some?
  {
  }

  lemma TicketsGrouped(dir: Directory, owner: Owner, ts: seq<Ticket>)
    requires forall t :: t in ts ==> ValidDate(t.start.date) && t.status != NewStatus
    ensures GroupsOf(dir, owner, KeysOf(ts, KeyOf(dir, owner)), ts)
  {
    forall i | 0 <= i < |ts| ensures ValidDate(ts[i].start.date) && ts[i].status != NewStatus {
      assert ts[i] in ts;
    }
    var ks := KeysOf(ts, KeyOf(dir, owner));
    forall k | k in ks ensures exists i :: 0 <= i < |ts| && Key(dir, owner, ts[i]) == k {
      var j :| 0 <= j < |ks| && ks[j] == k;
      var i :| 0 <= i < |ts| && KeyOf(dir, owner)(ts[i]) == ks[j];
      assert Key(dir, owner, ts[i]) == k;
    }
  }

  lemma KeysAtMostRows<T, K>(s: seq<T>, key: T -> K)
    ensures |KeysOf(s, key)| <= |s|
  {
    assert KeysOf(s, key) == Distinct(Map(s, key));
  }

  // ---------------------------------------------------------------------
  // What the rollup promises.

  function CountOf(r: RollupRow): nat
  {
    r.count
  }

  /** The (月份, name, 工单类型) of a row: what GROUP BY makes unique. */
  function RowKey(r: RollupRow): (string, string, TicketType)
  {
    (r.month, r.name, r.ttype)
  }

  /** The rollup is the sorted list of the rows of its groups. */
  lemma RollupUnfold(fork: Fork, dir: Directory, owner: Owner, rows: seq<Ticket>, start: Date, end: Date)
    requires forall t :: t in rows ==> ValidDate(t.start.date)
    ensures var ts := Filter(rows, Attributed(dir, owner, start, end));
      var ks := KeysOf(ts, KeyOf(dir, owner));
      && GroupsOf(dir, owner, ks, ts)
      && Rollup(fork, dir, owner, rows, start, end) == SortBy(GroupRows(fork, dir, owner, ks, ts), RowBefore)
  {
    AttributedTickets(dir, owner, rows, start, end);
    TicketsGrouped(dir, owner, Filter(rows, Attributed(dir, owner, start, end)));
  }

  /**
   * The facts every whole-rollup lemma starts from: the rollup `r` is a
   * permutation of the rows `u` of the groups `ks` of the tickets `ts`
   * that reach the GROUP BY, and `ks` lists each group once.
   */
  lemma RollupParts(fork: Fork, dir: Directory, owner: Owner, rows: seq<Ticket>, start: Date, end: Date)
    returns (ts: seq<Ticket>, ks: seq<GroupKey>, u: seq<RollupRow>)
    requires forall t :: t in rows ==> ValidDate(t.start.date)
    ensures ts == Filter(rows, Attributed(dir, owner, start, end))
    ensures ks == KeysOf(ts, KeyOf(dir, owner)) && NoDup(ks)
    ensures GroupsOf(dir, owner, ks, ts) && u == GroupRows(fork, dir, owner, ks, ts)
    ensures RowsOfGroups(fork, dir, owner, ks, ts, u)
    ensures Rollup(fork, dir, owner, rows, start, end) == SortBy(u, RowBefore)
    ensures multiset(Rollup(fork, dir, owner, rows, start, end)) == multiset(u)
  {
    ts := Filter(rows, Attributed(dir, owner, start, end));
    ks := KeysOf(ts, KeyOf(dir, owner));
    RollupUnfold(fork, dir, owner, rows, start, end);
    u := GroupRows(fork, dir, owner, ks, ts);
  }

  /** Each row satisfies WellFormed. */
  lemma RollupWellFormed(fork: Fork, dir: Directory, owner: Owner, rows: seq<Ticket>, start: Date, end: Date)
    requires forall t :: t in rows ==> ValidDate(t.start.date)
    ensures forall i :: 0 <= i < |Rollup(fork, dir, owner, rows, start, end)| ==>
      WellFormed(fork, Rollup(fork, dir, owner, rows, start, end)[i])
  {
    var ts, ks, u := RollupParts(fork, dir, owner, rows, start, end);
    RowsWellFormed(fork, dir, owner, ks, ts, u, Rollup(fork, dir, owner, rows, start, end));
  }

  lemma RowsWellFormed(fork: Fork, dir: Directory, owner: Owner, ks: seq<GroupKey>, ts: seq<Ticket>,
                       u: seq<RollupRow>, r: seq<RollupRow>)
    requires RowsOfGroups(fork, dir, owner, ks, ts, u) && multiset(r) == multiset(u)
    ensures forall i :: 0 <= i < |r| ==> WellFormed(fork, r[i])
  {
    PermutationMembers(r, u);
    forall i | 0 <= i < |r| ensures WellFormed(fork, r[i]) {
      assert r[i] in u;
      var j :| 0 <= j < |u| && r[i] == u[j];
      assert RowOfGroup(fork, dir, owner, ts, ks[j], u[j]);
    }
  }

  /** The rows come out in ORDER BY month DESC, ticket_type DESC, name order. */
  lemma RollupSorted(fork: Fork, dir: Directory, owner: Owner, rows: seq<Ticket>, start: Date, end: Date)
    requires forall t :: t in rows ==> ValidDate(t.start.date)
    ensures SortedBy(Rollup(fork, dir, owner, rows, start, end), RowBefore)
  {
    var ts, ks, u := RollupParts(fork, dir, owner, rows, start, end);
    RowBeforeIsTotalPreorder();
    SortBySorted(u, RowBefore);
  }

  /** The ticket that gives the row of group `k` its month label. */
  lemma GroupWitness(fork: Fork, dir: Directory, owner: Owner, ts: seq<Ticket>, k: GroupKey, row: RollupRow)
    returns (t: Ticket)
    requires RowOfGroup(fork, dir, owner, ts, k, row)
    ensures t in ts && Key(dir, owner, t) == k && ValidDate(t.start.date)
    ensures row.month == MonthLabel(t.start.date)
  {
    var i :| 0 <= i < |ts| && Key(dir, owner, ts[i]) == k
      && ValidDate(ts[i].start.date) && row.month == MonthLabel(ts[i].start.date);
    t := ts[i];
  }

  /** An in-scope ticket with the row's name, type and month label. */
  predicate Witnesses(dir: Directory, owner: Owner, start: Date, end: Date, t: Ticket, row: RollupRow)
  {
    && InScope(t, start, end) && OwnerName(dir, owner, t) == Some(row.name)
    && TypeOf(t.cls) == row.ttype && ValidDate(t.start.date) && row.month == MonthLabel(t.start.date)
  }

  /** Some in-scope ticket of `rows` has the row's name, type and month label. */
  predicate Witnessed(dir: Directory, owner: Owner, rows: seq<Ticket>, start: Date, end: Date, row: RollupRow)
  {
    exists t :: t in rows && Witnesses(dir, owner, start, end, t, row)
  }

  lemma WitnessOfGroup(fork: Fork, dir: Directory, owner: Owner, rows: seq<Ticket>, start: Date, end: Date,
                       k: GroupKey, row: RollupRow)
    requires RowOfGroup(fork, dir, owner, Filter(rows, Attributed(dir, owner, start, end)), k, row)
    ensures Witnessed(dir, owner, rows, start, end, row)
  {
    var t := GroupWitness(fork, dir, owner, Filter(rows, Attributed(dir, owner, start, end)), k, row);
    AttributedTickets(dir, owner, rows, start, end);
    assert t in rows && Witnesses(dir, owner, start, end, t, row);
  }

  /**
   * No row is invented: each comes from an in-scope ticket with that
   * month, name and type.
   */
  lemma RollupRowsWitnessed(fork: Fork, dir: Directory, owner: Owner, rows: seq<Ticket>, start: Date, end: Date)
    requires forall t :: t in rows ==> ValidDate(t.start.date)
    ensures forall i :: 0 <= i < |Rollup(fork, dir, owner, rows, start, end)| ==>
      Witnessed(dir, owner, rows, start, end, Rollup(fork, dir, owner, rows, start, end)[i])
  {
    var ts, ks, u := RollupParts(fork, dir, owner, rows, start, end);
    RowsWitnessed(fork, dir, owner, rows, start, end, ks, u, Rollup(fork, dir, owner, rows, start, end));
  }

  lemma RowsWitnessed(fork: Fork, dir: Directory, owner: Owner, rows: seq<Ticket>, start: Date, end: Date,
                      ks: seq<GroupKey>, u: seq<RollupRow>, r: seq<RollupRow>)
    requires RowsOfGroups(fork, dir, owner, ks, Filter(rows, Attributed(dir, owner, start, end)), u)
    requires multiset(r) == multiset(u)
    ensures forall i :: 0 <= i < |r| ==> Witnessed(dir, owner, rows, start, end, r[i])
  {
    var ts := Filter(rows, Attributed(dir, owner, start, end));
    PermutationMembers(r, u);
    forall i | 0 <= i < |r| ensures Witnessed(dir, owner, rows, start, end, r[i]) {
      assert r[i] in u;
      var j :| 0 <= j < |u| && r[i] == u[j];
      assert RowOfGroup(fork, dir, owner, ts, ks[j], u[j]);
      WitnessOfGroup(fork, dir, owner, rows, start, end, ks[j], u[j]);
    }
  }

  predicate DistinctKeys(rs: seq<RollupRow>)
  {
    forall i, j :: 0 <= i < |rs| && 0 <= j < |rs| && i != j ==> RowKey(rs[i]) != RowKey(rs[j])
  }

  /** Two distinct groups never share their row's (月份, name, 工单类型). */
  lemma GroupRowKeys(fork: Fork, dir: Directory, owner: Owner, ts: seq<Ticket>,
                     k1: GroupKey, row1: RollupRow, k2: GroupKey, row2: RollupRow)
    requires RowOfGroup(fork, dir, owner, ts, k1, row1) && RowOfGroup(fork, dir, owner, ts, k2, row2)
    requires k1 != k2
    ensures RowKey(row1) != RowKey(row2)
  {
    var t1 := GroupWitness(fork, dir, owner, ts, k1, row1);
    var t2 := GroupWitness(fork, dir, owner, ts, k2, row2);
    MonthLabelInjective(t1.start.date, t2.start.date);
  }

  lemma GroupRowsDistinct(fork: Fork, dir: Directory, owner: Owner, ks: seq<GroupKey>, ts: seq<Ticket>, u: seq<RollupRow>)
    requires RowsOfGroups(fork, dir, owner, ks, ts, u) && NoDup(ks)
    ensures DistinctKeys(u)
  {
    forall a, b | 0 <= a < |u| && 0 <= b < |u| && a != b ensures RowKey(u[a]) != RowKey(u[b]) {
      assert ks[a] != ks[b] by {
        if a < b { assert ks[a] != ks[b]; } else { assert ks[b] != ks[a]; }
      }
      GroupRowKeys(fork, dir, owner, ts, ks[a], u[a], ks[b], u[b]);
    }
  }

  /** Distinct keys survive any reordering. */
  lemma DistinctKeysPermutation(u: seq<RollupRow>, r: seq<RollupRow>)
    requires DistinctKeys(u) && multiset(r) == multiset(u)
    ensures DistinctKeys(r)
  {
    assert NoDup(u) by {
      forall i, j | 0 <= i < j < |u| ensures u[i] != u[j] {
        assert RowKey(u[i]) != RowKey(u[j]);
      }
    }
    MultisetNoDup(u, r);
    PermutationMembers(r, u);
    forall i, j | 0 <= i < |r| && 0 <= j < |r| && i != j ensures RowKey(r[i]) != RowKey(r[j]) {
      assert r[i] in u && r[j] in u;
      var a :| 0 <= a < |u| && r[i] == u[a];
      var b :| 0 <= b < |u| && r[j] == u[b];
      if i < j { assert r[i] != r[j]; } else { assert r[j] != r[i]; }
    }
  }

  /**
   * GROUP BY month, name and type yields one row per combination: no two
   * rows of the rollup share their (月份, name, 工单类型).
   */
  lemma RollupKeysDistinct(fork: Fork, dir: Directory, owner: Owner, rows: seq<Ticket>, start: Date, end: Date)
    requires forall t :: t in rows ==> ValidDate(t.start.date)
    ensures DistinctKeys(Rollup(fork, dir, owner, rows, start, end))
  {
    var ts, ks, u := RollupParts(fork, dir, owner, rows, start, end);
    GroupRowsDistinct(fork, dir, owner, ks, ts, u);
    DistinctKeysPermutation(u, Rollup(fork, dir, owner, rows, start, end));
  }

  /**
   * Whether `t` is one of the tickets behind `row`: in scope, attributed
   * to the row's name, of the row's type and started in the row's month.
   */
  predicate Behind(dir: Directory, owner: Owner, start: Date, end: Date, row: RollupRow, t: Ticket)
  {
    && Attributed(dir, owner, start, end)(t) && OwnerName(dir, owner, t) == Some(row.name)
    && TypeOf(t.cls) == row.ttype && ValidDate(t.start.date) && MonthLabel(t.start.date) == row.month
  }

  function BehindOf(dir: Directory, owner: Owner, start: Date, end: Date, row: RollupRow): Ticket -> bool
  {
    (t: Ticket) => Behind(dir, owner, start, end, row, t)
  }

  /** `row` tallies the tickets behind it. */
  predicate TalliesBehind(fork: Fork, dir: Directory, owner: Owner, rows: seq<Ticket>, start: Date, end: Date, row: RollupRow)
  {
    Tallies(fork, Filter(rows, BehindOf(dir, owner, start, end, row)), row)
  }

  /** The tickets behind the row of group `k` are the tickets of that group. */
  lemma GroupIsBehind(fork: Fork, dir: Directory, owner: Owner, rows: seq<Ticket>, start: Date, end: Date,
                      k: GroupKey, row: RollupRow)
    requires forall t :: t in rows ==> ValidDate(t.start.date)
    requires RowOfGroup(fork, dir, owner, Filter(rows, Attributed(dir, owner, start, end)), k, row)
    ensures TalliesBehind(fork, dir, owner, rows, start, end, row)
  {
    var ts := Filter(rows, Attributed(dir, owner, start, end));
    var w := GroupWitness(fork, dir, owner, ts, k, row);
    forall i | 0 <= i < |rows|
      ensures BehindOf(dir, owner, start, end, row)(rows[i])
          <==> Attributed(dir, owner, start, end)(rows[i]) && KeyOf(dir, owner)(rows[i]) == k
    {
      assert rows[i] in rows;
      MonthLabelInjective(rows[i].start.date, w.start.date);
    }
    WithKeyOfFilter(rows, Attributed(dir, owner, start, end), KeyOf(dir, owner), k, BehindOf(dir, owner, start, end, row));
  }

  /**
   * Each row of the rollup tallies the tickets behind it: its 工单数量,
   * 未解决 and 超时工单 count the in-scope tickets of its month, name and
   * type, the unresolved ones and those breached at the version's flags,
   * and its duration columns aggregate their response and resolution times.
   */
  lemma RollupRowsTally(fork: Fork, dir: Directory, owner: Owner, rows: seq<Ticket>, start: Date, end: Date)
    requires forall t :: t in rows ==> ValidDate(t.start.date)
    ensures var r := Rollup(fork, dir, owner, rows, start, end);
      forall i :: 0 <= i < |r| ==> TalliesBehind(fork, dir, owner, rows, start, end, r[i])
  {
    var ts, ks, u := RollupParts(fork, dir, owner, rows, start, end);
    RowsTally(fork, dir, owner, rows, start, end, ks, u, Rollup(fork, dir, owner, rows, start, end));
  }

  lemma RowsTally(fork: Fork, dir: Directory, owner: Owner, rows: seq<Ticket>, start: Date, end: Date,
                  ks: seq<GroupKey>, u: seq<RollupRow>, r: seq<RollupRow>)
    requires forall t :: t in rows ==> ValidDate(t.start.date)
    requires RowsOfGroups(fork, dir, owner, ks, Filter(rows, Attributed(dir, owner, start, end)), u)
    requires multiset(r) == multiset(u)
    ensures forall i :: 0 <= i < |r| ==> TalliesBehind(fork, dir, owner, rows, start, end, r[i])
  {
    var ts := Filter(rows, Attributed(dir, owner, start, end));
    PermutationMembers(r, u);
    forall i | 0 <= i < |r| ensures TalliesBehind(fork, dir, owner, rows, start, end, r[i]) {
      assert r[i] in u;
      var j :| 0 <= j < |u| && r[i] == u[j];
      assert RowOfGroup(fork, dir, owner, ts, ks[j], u[j]);
      GroupIsBehind(fork, dir, owner, rows, start, end, ks[j], u[j]);
    }
  }

  /** `u[j]` counts the tickets of the group `ks[j]`. */
  predicate CountsOfGroups(ks: seq<GroupKey>, ts: seq<Ticket>, key: Ticket -> GroupKey, u: seq<RollupRow>)
  {
    |u| == |ks| && forall j :: 0 <= j < |ks| ==> u[j].count == |WithKey(ts, key, ks[j])|
  }

  lemma {:induction false} GroupRowsCount(ks: seq<GroupKey>, ts: seq<Ticket>, key: Ticket -> GroupKey, u: seq<RollupRow>)
    requires CountsOfGroups(ks, ts, key, u)
    ensures SumOf(u, CountOf) == GroupTotal(ks, ts, key, One)
  {
    if ks != [] {
      var rest := u[1..];
      assert u == [u[0]] + rest;
      assert CountsOfGroups(ks[1..], ts, key, rest) by {
        forall j | 0 <= j < |ks[1..]| ensures rest[j].count == |WithKey(ts, key, ks[1..][j])| {
          assert ks[1..][j] == ks[j + 1] && rest[j] == u[j + 1];
        }
      }
      GroupRowsCount(ks[1..], ts, key, rest);
      SumOfAppend([u[0]], rest, CountOf);
      SumOfSingle(u[0], CountOf);
      SumOfOne(WithKey(ts, key, ks[0]));
    }
  }

  /**
   * The 工单数量 column adds up to the number of in-scope tickets that
   * have a team (or an agent): every such ticket is counted in exactly
   * one row.
   */
  lemma RollupCountsEveryTicket(fork: Fork, dir: Directory, owner: Owner, rows: seq<Ticket>, start: Date, end: Date)
    requires forall t :: t in rows ==> ValidDate(t.start.date)
    ensures SumOf(Rollup(fork, dir, owner, rows, start, end), CountOf) == Count(rows, Attributed(dir, owner, start, end))
  {
    var ts, ks, u := RollupParts(fork, dir, owner, rows, start, end);
    SumOfPermutation(Rollup(fork, dir, owner, rows, start, end), u, CountOf);
    assert CountsOfGroups(ks, ts, KeyOf(dir, owner), u) by {
      forall j | 0 <= j < |ks| ensures u[j].count == |WithKey(ts, KeyOf(dir, owner), ks[j])| {
        assert RowOfGroup(fork, dir, owner, ts, ks[j], u[j]);
      }
    }
    GroupRowsCount(ks, ts, KeyOf(dir, owner), u);
    GroupTotalAll(ks, ts, KeyOf(dir, owner), One);
    SumOfOne(ts);
    FilterLength(rows, Attributed(dir, owner, start, end));
  }
}
