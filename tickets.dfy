/**
 * The ticket store as the report reads it: one row per ticket joined with
 * its request, incident or change record, and the contact and person
 * tables that names are looked up in. Also the status buckets every query
 * shares, and the SLA breach flags on which the two versions of the report
 * differ.
 */
module Tickets {
  import opened Wrappers
  import opened Calendar

  /** `t.finalclass`: the detail table (ticket_request, ticket_incident, `change`) holding the ticket. */
  datatype TicketClass = UserRequest | Incident | Change

  /**
   * A tinyint SLA flag such as `tto_100_passed`; None is SQL NULL.
   * `flag = 1` and "flag is true" (non-zero) differ for other values.
   */
  type Flag = Option<int>

  predicate IsOne(f: Flag)
  {
    f == Some(1)
  }

  predicate IsTruthy(f: Flag)
  {
    f.Some? && f.value != 0
  }

  /**
   * The SLA part of a request or incident record: breach flags at 75% and
   * 100% of the deadline, the response and resolution timestamps, the
   * 100% overrun in seconds, the assignment and resolution dates and the
   * 100% deadlines. A change has no such record; the queries never read
   * it for changes.
   */
  datatype Sla = Sla(
    tto75: Flag, ttr75: Flag, tto100: Flag, ttr100: Flag,
    ttoStarted: Option<DateTime>, ttoStopped: Option<DateTime>, ttrStopped: Option<DateTime>,
    tto100Overrun: Option<int>, ttr100Overrun: Option<int>,
    assignmentDate: Option<DateTime>, resolutionDate: Option<DateTime>,
    tto100Deadline: Option<DateTime>, ttr100Deadline: Option<DateTime>)

  /**
   * A ticket joined with its detail record. `service` and `subservice` are
   * the names reached through `service_id` and `servicesubcategory_id`
   * (None when the reference is NULL or dangling; changes have neither).
   */
  datatype Ticket = Ticket(
    ref: string, title: string, cls: TicketClass, status: string,
    start: DateTime, end: Option<DateTime>, lastUpdate: Option<DateTime>,
    teamId: Option<nat>, agentId: Option<nat>, callerId: Option<nat>,
    sla: Sla, service: Option<string>, subservice: Option<string>)

  /** A `contact` row: persons and teams are both contacts. */
  datatype Contact = Contact(name: string, finalclass: string)

  /** The `contact` table and the `person` table (id to first_name). */
  datatype Directory = Directory(contacts: map<nat, Contact>, persons: map<nat, Option<string>>)

  /**
   * The two versions of the report: `Latest` is itop_report.py with
   * pdf_generator.py, `Dated` is itop_report_20250110.py.
   */
  datatype Fork = Latest | Dated

  // ---------------------------------------------------------------------
  // Status buckets.

  const NewStatus := "new"

  /** status IN ('closed', 'resolved'). */
  predicate IsResolved(status: string)
  {
    status == "closed" || status == "resolved"
  }

  /** status = 'closed'. */
  predicate IsClosed(status: string)
  {
    status == "closed"
  }

  /** status NOT IN ('closed', 'new', 'resolved'). */
  predicate IsUnresolved(status: string)
  {
    status != "closed" && status != NewStatus && status != "resolved"
  }

  /**
   * Once `new` is excluded the buckets partition the statuses: every status
   * is resolved or unresolved and not both, and closed is part of resolved.
   */
  lemma BucketsPartition(status: string)
    requires status != NewStatus
    ensures IsResolved(status) != IsUnresolved(status)
    ensures IsClosed(status) ==> IsResolved(status)
  {
  }

  /** The status and date conditions shared by every rollup. */
  predicate InScope(t: Ticket, start: Date, end: Date)
  {
    t.status != NewStatus && InPeriod(t.start, start, end)
  }

  // ---------------------------------------------------------------------
  // Names from the directory.

  /**
   * CONCAT(IFNULL(c.name, ''), ' ', IFNULL(p.first_name, '')): the two
   * name parts around one space, a NULL part read as empty.
   */
  function NameText(name: Option<string>, first: Option<string>): (r: string)
    ensures |r| == |name.GetOr("")| + 1 + |first.GetOr("")|
    ensures r[|name.GetOr("")|] == ' '
  {
    name.GetOr("") + " " + first.GetOr("")
  }

  /** Whether `person p JOIN contact c` has a row for the id. */
  predicate Joined(dir: Directory, id: Option<nat>)
  {
    id.Some? && id.value in dir.persons && id.value in dir.contacts
  }

  /**
   * The same expression (with COALESCE) over an inner join to
   * `person p JOIN contact c`: None when the id has no person and contact.
   */
  function PersonName(dir: Directory, id: Option<nat>): (r: Option<string>)
    ensures r.Some? <==> Joined(dir, id)
  {
    if Joined(dir, id) then Some(NameText(Some(dir.contacts[id.value].name), dir.persons[id.value]))
    else None
  }

  /**
   * The expression after a LEFT JOIN to `person p JOIN contact c`: where
   * the join finds no row both parts are NULL, so the name is " ".
   */
  function PersonNameOrBlank(dir: Directory, id: Option<nat>): (r: string)
    ensures PersonName(dir, id).None? ==> r == " "
    ensures PersonName(dir, id).Some? ==> r == PersonName(dir, id).value
  {
    var joined := Joined(dir, id);
    NameText(
      if joined then Some(dir.contacts[id.value].name) else None,
      if joined then dir.persons[id.value] else None)
  }

  /** `c.name` of the contact `id` (any kind of contact), NULL when absent. */
  function ContactName(dir: Directory, id: Option<nat>): (r: Option<string>)
    ensures r.Some? <==> id.Some? && id.value in dir.contacts
  {
    if id.Some? && id.value in dir.contacts then Some(dir.contacts[id.value].name) else None
  }

  /** The name of the team `id`: a contact whose finalclass is 'Team'. */
  function TeamName(dir: Directory, id: Option<nat>): (r: Option<string>)
    ensures r.Some? <==> id.Some? && id.value in dir.contacts && dir.contacts[id.value].finalclass == "Team"
  {
    if id.Some? && id.value in dir.contacts && dir.contacts[id.value].finalclass == "Team"
    then Some(dir.contacts[id.value].name) else None
  }
}
