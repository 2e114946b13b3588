/**
 * The aggregate queries at the top of the report: the ticket summary
 * (get_ticket_summary) and the status breakdown of each ticket class
 * (get_user_request_stats, get_incident_stats, get_change_stats). Both
 * versions of the report run the same text for these.
 */
module StatusStats {
  import opened Wrappers
  import opened Seqs
  import opened Calendar
  import opened Tickets

  /** The rows of one class the breakdown reads: in the period, status not 'new'. */
  function ClassScope(cls: TicketClass, start: Date, end: Date): Ticket -> bool
  {
    (t: Ticket) => t.cls == cls && InScope(t, start, end)
  }

  /** ... and among them, status IN ('closed', 'resolved'). */
  function ClassResolved(cls: TicketClass, start: Date, end: Date): Ticket -> bool
  {
    (t: Ticket) => t.cls == cls && InScope(t, start, end) && IsResolved(t.status)
  }

  /** ... status = 'closed'. */
  function ClassClosed(cls: TicketClass, start: Date, end: Date): Ticket -> bool
  {
    (t: Ticket) => t.cls == cls && InScope(t, start, end) && IsClosed(t.status)
  }

  /** ... status NOT IN ('closed', 'resolved'). */
  function ClassNotResolved(cls: TicketClass, start: Date, end: Date): Ticket -> bool
  {
    (t: Ticket) => t.cls == cls && InScope(t, start, end) && !IsResolved(t.status)
  }

  /** Every ticket of the summary: any class, in the period, status not 'new'. */
  function AnyScope(start: Date, end: Date): Ticket -> bool
  {
    (t: Ticket) => InScope(t, start, end)
  }

  /**
   * SUM over the rows of an aggregate without GROUP BY: NULL when no row
   * qualifies, however the CASE inside it is written.
   */
  function SqlSum(rows: nat, n: nat): (r: Option<nat>)
    ensures r.None? <==> rows == 0
  {
    if rows == 0 then None else Some(n)
  }

  /** The single row of a class's status query. */
  datatype Breakdown = Breakdown(total: nat, resolved: Option<nat>, closed: Option<nat>, unresolved: Option<nat>)

  /**
   * count(1), resolved_total, closed_total, unresolved_total of one class.
   * An empty period yields total 0 and NULL sums; otherwise resolved and
   * unresolved split the total and closed is part of resolved.
   */
  function StatusBreakdown(cls: TicketClass, rows: seq<Ticket>, start: Date, end: Date): (r: Breakdown)
    ensures r.total == 0 <==> r.resolved.None?
    ensures r.closed.None? == r.resolved.None? == r.unresolved.None?
    ensures r.total > 0 ==> r.resolved.value + r.unresolved.value == r.total
    ensures r.total > 0 ==> r.closed.value <= r.resolved.value
  {
    var total := Count(rows, ClassScope(cls, start, end));
    var resolved := Count(rows, ClassResolved(cls, start, end));
    var closed := Count(rows, ClassClosed(cls, start, end));
    var unresolved := Count(rows, ClassNotResolved(cls, start, end));
    CountPartition(rows, ClassScope(cls, start, end), ClassResolved(cls, start, end), ClassNotResolved(cls, start, end));
    CountImplies(rows, ClassClosed(cls, start, end), ClassResolved(cls, start, end));
    Breakdown(total, SqlSum(total, resolved), SqlSum(total, closed), SqlSum(total, unresolved))
  }

  /** What one more in-scope ticket with status `status` adds to a breakdown. */
  function AddTicket(b: Breakdown, status: string): Breakdown
  {
    var r := if IsResolved(status) then 1 else 0;
    var c := if IsClosed(status) then 1 else 0;
    Breakdown(b.total + 1,
      Some(b.resolved.GetOr(0) + r), Some(b.closed.GetOr(0) + c), Some(b.unresolved.GetOr(0) + 1 - r))
  }

  /**
   * A ticket moves the breakdown of its class only when it lies in the
   * period and its status is not 'new'; it then adds one to the total and
   * to exactly one of resolved and unresolved, and to closed when closed.
   */
  lemma BreakdownAddsOnlyInScope(cls: TicketClass, rows: seq<Ticket>, t: Ticket, start: Date, end: Date)
    ensures StatusBreakdown(cls, rows + [t], start, end)
         == if t.cls == cls && InScope(t, start, end)
            then AddTicket(StatusBreakdown(cls, rows, start, end), t.status)
            else StatusBreakdown(cls, rows, start, end)
  {
    var scope, res := ClassScope(cls, start, end), ClassResolved(cls, start, end);
    var clo, unres := ClassClosed(cls, start, end), ClassNotResolved(cls, start, end);
    CountSnoc(rows, t, scope);
    CountSnoc(rows, t, res);
    CountSnoc(rows, t, clo);
    CountSnoc(rows, t, unres);
    if scope(t) {
      BucketsPartition(t.status);
      var n := Count(rows, scope);
      if n == 0 {
        CountImplies(rows, res, scope);
        CountImplies(rows, unres, scope);
        CountImplies(rows, clo, scope);
      }
      BreakdownStep(n, Count(rows, res), Count(rows, clo), Count(rows, unres), t.status);
    }
  }

  /** The breakdown of counts that grow by one in-scope ticket with status `status`. */
  lemma BreakdownStep(n: nat, r: nat, c: nat, u: nat, status: string)
    requires n == 0 ==> r == 0 && c == 0 && u == 0
    ensures var dr := if IsResolved(status) then 1 else 0;
      Breakdown(n + 1, SqlSum(n + 1, r + dr), SqlSum(n + 1, c + (if IsClosed(status) then 1 else 0)),
                SqlSum(n + 1, u + 1 - dr))
      == AddTicket(Breakdown(n, SqlSum(n, r), SqlSum(n, c), SqlSum(n, u)), status)
  {
  }

  /** The single row of get_ticket_summary. */
  datatype Summary = Summary(total: nat, requestTotal: Option<nat>, changeTotal: Option<nat>, incidentTotal: Option<nat>)

  /**
   * count(1) and the per-class SUMs over every ticket in the period whose
   * status is not 'new'. The class counts add up to the total.
   */
  function TicketSummary(rows: seq<Ticket>, start: Date, end: Date): (r: Summary)
    ensures r.total == 0 <==> r.requestTotal.None?
    ensures r.requestTotal.None? == r.changeTotal.None? == r.incidentTotal.None?
    ensures r.total > 0 ==> r.requestTotal.value + r.changeTotal.value + r.incidentTotal.value == r.total
  {
    var total := Count(rows, AnyScope(start, end));
    var requests := Count(rows, ClassScope(UserRequest, start, end));
    var changes := Count(rows, ClassScope(Change, start, end));
    var incidents := Count(rows, ClassScope(Incident, start, end));
    SummarySplits(rows, start, end);
    Summary(total, SqlSum(total, requests), SqlSum(total, changes), SqlSum(total, incidents))
  }

  lemma SummarySplits(rows: seq<Ticket>, start: Date, end: Date)
    ensures Count(rows, ClassScope(UserRequest, start, end)) + Count(rows, ClassScope(Change, start, end))
          + Count(rows, ClassScope(Incident, start, end)) == Count(rows, AnyScope(start, end))
  {
    var notChange: Ticket -> bool := (t: Ticket) => t.cls != Change && InScope(t, start, end);
    CountPartition(rows, AnyScope(start, end), ClassScope(Change, start, end), notChange);
    CountPartition(rows, notChange, ClassScope(UserRequest, start, end), ClassScope(Incident, start, end));
  }

  /**
   * The summary's total is the sum of the three breakdown totals, and each
   * class count of the summary is that class's breakdown total.
   */
  lemma SummaryMatchesBreakdowns(rows: seq<Ticket>, start: Date, end: Date)
    ensures var sum := TicketSummary(rows, start, end);
      && sum.total == StatusBreakdown(UserRequest, rows, start, end).total
                    + StatusBreakdown(Incident, rows, start, end).total
                    + StatusBreakdown(Change, rows, start, end).total
      && (sum.total > 0 ==> sum.requestTotal == Some(StatusBreakdown(UserRequest, rows, start, end).total))
      && (sum.total > 0 ==> sum.incidentTotal == Some(StatusBreakdown(Incident, rows, start, end).total))
      && (sum.total > 0 ==> sum.changeTotal == Some(StatusBreakdown(Change, rows, start, end).total))
  {
    SummarySplits(rows, start, end);
  }
}
