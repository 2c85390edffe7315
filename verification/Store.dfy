/** The tables of the database and the meaning of the statements run on them. */
module Store {
  import opened Common
  import opened Monitors
  import opened Text

  /** A stored timestamp: RFC 3339 text, compared as text. */
  type Stamp = string

  datatype Status = Status(
    state: MonitorState, lastCheckId: Option<Id>, lastCheckedAt: Option<Stamp>, lastSuccessAt: Option<Stamp>,
    lastFailureAt: Option<Stamp>, successes: nat, failures: nat, updatedAt: Stamp)

  datatype CheckRow = CheckRow(id: Id, monitor: Id, success: bool, state: MonitorState, at: Stamp)

  datatype EventKind =
    | Created | Updated | Deleted | Enabled | Disabled
    | StateChanged(from: MonitorState, to: MonitorState)
    | IncidentOpened | IncidentResolved

  datatype Event = Event(id: Id, kind: EventKind, monitor: Id, at: Stamp)

  datatype Incident = Incident(
    id: Id, monitor: Id, startedAt: Stamp, resolvedAt: Option<Stamp>, startEvent: Id, endEvent: Option<Id>, reason: string)

  datatype JobKind = MonitorDown | MonitorRecovered

  datatype NotifyJob = NotifyJob(kind: JobKind, monitor: Id, incident: Id, event: Id)

  /** `monitors` holds each row as it is read back; `outbox` lists the notification jobs in the order
      they were enqueued. */
  datatype Tables = Tables(
    monitors: map<Id, Monitor>, states: map<Id, Status>, checks: seq<CheckRow>, events: seq<Event>,
    incidents: seq<Incident>, outbox: seq<NotifyJob>)

  const SECOND := 1_000_000_000

  /** Go's integer division, which truncates toward zero. */
  function Quotient(a: int, b: nat): int
    requires b > 0
  {
    if a >= 0 then a / b else -((-a) / b)
  }

  /** `r` is `d` without the part of a second, cut toward zero. */
  predicate WholeSeconds(d: int, r: int) {
    && r % 1_000_000_000 == 0
    && (d >= 0 ==> r <= d < r + 1_000_000_000) && (d <= 0 ==> r - 1_000_000_000 < d <= r)
  }

  /** A monitor as it is read back after a write: durations are stored in whole seconds. */
  function Stored(m: Monitor): (r: Monitor)
    ensures r == m.(interval := r.interval, timeout := r.timeout)
    ensures WholeSeconds(m.interval, r.interval) && WholeSeconds(m.timeout, r.timeout)
  {
    m.(interval := Quotient(m.interval, SECOND) * SECOND, timeout := Quotient(m.timeout, SECOND) * SECOND)
  }

  /** Durations in whole seconds come back as they were. */
  lemma WholeSecondsReturn(m: Monitor)
    requires m.interval % 1_000_000_000 == 0 && m.timeout % 1_000_000_000 == 0
    ensures Stored(m) == m
  {}

  /** Rows are stored under their own ids. */
  ghost predicate OwnIds(monitors: map<Id, Monitor>) { forall id | id in monitors :: monitors[id].id == id }

  /** The row exists and is not soft-deleted. */
  predicate Live(monitors: map<Id, Monitor>, id: Id) { id in monitors && !monitors[id].deleted }

  predicate IsOpen(incident: Incident, monitor: Id) { incident.monitor == monitor && incident.resolvedAt == None }

  function OpenFor(monitor: Id): Incident -> bool { (i: Incident) => IsOpen(i, monitor) }

  /** The incidents of a monitor that are not resolved. */
  ghost function OpenCount(db: Tables, monitor: Id): nat { Count(db.incidents, OpenFor(monitor)) }

  /** FindOpenByMonitor: an open incident of the monitor whose start text is greatest. */
  function FindOpen(incidents: seq<Incident>, monitor: Id): (r: Option<nat>)
    ensures r.Some? ==> r.value < |incidents| && IsOpen(incidents[r.value], monitor)
  {
    if incidents == [] then None else
    var n := |incidents| - 1;
    var r := FindOpen(incidents[..n], monitor);
    if IsOpen(incidents[n], monitor) && (r == None || TextLess(incidents[r.value].startedAt, incidents[n].startedAt))
    then Some(n) else r
  }

  lemma {:induction false} FindOpenMeans(incidents: seq<Incident>, monitor: Id)
    ensures var r := FindOpen(incidents, monitor);
      && (r == None <==> forall i | 0 <= i < |incidents| :: !IsOpen(incidents[i], monitor))
      && (r.Some? ==> forall i | 0 <= i < |incidents| && IsOpen(incidents[i], monitor) ::
                        !TextLess(incidents[r.value].startedAt, incidents[i].startedAt))
  {
    if incidents == [] { return; }
    var n := |incidents| - 1;
    FindOpenMeans(incidents[..n], monitor);
    var before, r := FindOpen(incidents[..n], monitor), FindOpen(incidents, monitor);
    Irreflexive(incidents[n].startedAt);
    forall i | 0 <= i < |incidents| && IsOpen(incidents[i], monitor) && r.Some?
      ensures !TextLess(incidents[r.value].startedAt, incidents[i].startedAt) {
      if i < n { assert incidents[..n][i] == incidents[i]; }
      if r == Some(n) && i < n {
        Asymmetric(incidents[before.value].startedAt, incidents[n].startedAt);
        NegativelyTransitive(incidents[n].startedAt, incidents[before.value].startedAt, incidents[i].startedAt);
      }
    }
    assert forall i | 0 <= i < n :: incidents[..n][i] == incidents[i];
  }

  /** The UPDATE of Resolve: it touches only rows that are not resolved yet. */
  function ResolveRows(incidents: seq<Incident>, id: Id, at: Stamp, event: Id): (r: seq<Incident>)
    ensures |r| == |incidents|
    ensures forall i | 0 <= i < |r| ::
              r[i] == if incidents[i].id == id && incidents[i].resolvedAt == None
                      then incidents[i].(resolvedAt := Some(at), endEvent := Some(event)) else incidents[i]
  {
    if incidents == [] then [] else
    var i := incidents[0];
    [if i.id == id && i.resolvedAt == None then i.(resolvedAt := Some(at), endEvent := Some(event)) else i]
      + ResolveRows(incidents[1..], id, at, event)
  }

  /** The row affected: some incident with the id is still open. */
  predicate Resolvable(incidents: seq<Incident>, id: Id) {
    exists i | 0 <= i < |incidents| :: incidents[i].id == id && incidents[i].resolvedAt == None
  }

  ghost predicate DistinctIds(incidents: seq<Incident>) {
    forall i, j | 0 <= i < j < |incidents| :: incidents[i].id != incidents[j].id
  }

  ghost predicate DistinctIncidents(db: Tables) { DistinctIds(db.incidents) }

  lemma FindOpenCount(db: Tables, monitor: Id)
    ensures FindOpen(db.incidents, monitor) == None <==> OpenCount(db, monitor) == 0
  {
    FindOpenMeans(db.incidents, monitor);
    CountZero(db.incidents, OpenFor(monitor));
    assert forall i | 0 <= i < |db.incidents| :: db.incidents[i] in db.incidents;
  }

  /** With unique ids, resolving row `k` takes exactly that row out of the open ones. */
  lemma ResolveRowsCount(db: Tables, k: nat, at: Stamp, event: Id, monitor: Id)
    requires DistinctIncidents(db) && k < |db.incidents| && db.incidents[k].resolvedAt == None
    ensures var r := ResolveRows(db.incidents, db.incidents[k].id, at, event);
      && r == db.incidents[k := r[k]]
      && Count(r, OpenFor(monitor))
         == OpenCount(db, monitor) - (if db.incidents[k].monitor == monitor then 1 else 0)
  {
    var r := ResolveRows(db.incidents, db.incidents[k].id, at, event);
    forall i | 0 <= i < |r| && i != k ensures r[i] == db.incidents[i] {}
    assert r == db.incidents[k := r[k]];
    CountUpdate(db.incidents, k, r[k], OpenFor(monitor));
  }
}
