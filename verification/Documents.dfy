/** Referential integrity of the audit trail: in every interleaving, whichever calls fail, every incident and
    every notification job points at the events that document it. */
module Documents {
  import opened Store
  import opened CheckRun
  import opened Projection
  import opened Requests
  import opened Interleaving

  function StartOf(i: Incident): Event { Event(i.startEvent, IncidentOpened, i.monitor, i.startedAt) }

  function EndOf(i: Incident): Event
    requires i.endEvent.Some? && i.resolvedAt.Some?
  {
    Event(i.endEvent.value, IncidentResolved, i.monitor, i.resolvedAt.value)
  }

  /** The incident's start is logged under its start event; it is resolved exactly when it has an end event,
      and then its end is logged too. */
  ghost predicate Documented(events: seq<Event>, i: Incident) {
    && StartOf(i) in events
    && (i.resolvedAt.Some? <==> i.endEvent.Some?)
    && (i.resolvedAt.Some? ==> EndOf(i) in events)
  }

  function KindOf(j: NotifyJob): EventKind { if j.kind == MonitorDown then IncidentOpened else IncidentResolved }

  /** The job names the event it announces, and an incident of the same monitor. */
  ghost predicate Sourced(db: Tables, j: NotifyJob) {
    && (exists e :: e in db.events && e.id == j.event && e.kind == KindOf(j) && e.monitor == j.monitor)
    && (exists i :: i in db.incidents && i.id == j.incident && i.monitor == j.monitor)
  }

  ghost predicate Consistent(db: Tables) {
    && (forall i | i in db.incidents :: Documented(db.events, i))
    && (forall j | j in db.outbox :: Sourced(db, j))
  }

  /** The event that a run about to touch the incidents has already logged. */
  ghost predicate Prepared(db: Tables, c: Check) {
    && (c.stage.Opening? ==> Event(c.probe.incidentEventId, IncidentOpened, c.monitor, c.probe.at) in db.events)
    && (c.stage.Resolving? ==> Event(c.probe.incidentEventId, IncidentResolved, c.monitor, c.probe.at) in db.events)
  }

  lemma SourcedGrows(a: Tables, b: Tables, j: NotifyJob)
    requires Sourced(a, j) && (forall e | e in a.events :: e in b.events) && Grows(a.incidents, b.incidents)
    ensures Sourced(b, j)
  {
    var i :| i in a.incidents && i.id == j.incident && i.monitor == j.monitor;
    var k :| 0 <= k < |a.incidents| && a.incidents[k] == i;
    assert b.incidents[k] in b.incidents;
  }

  lemma LogEvent(db: Tables, e: Event)
    requires Consistent(db)
    ensures Consistent(db.(events := db.events + [e]))
  {
    var t := db.(events := db.events + [e]);
    forall j | j in db.outbox ensures Sourced(t, j) { SourcedGrows(db, t, j); }
  }

  lemma OpeningCompletes(db: Tables, c: Check)
    requires c.stage.Opening? && Consistent(db) && Prepared(db, c)
    requires DistinctIncidents(db) && !HasId(db.incidents, c.probe.incidentId)
    ensures Consistent(Effect(db, c))
  {
    var i, p, t := NewIncident(c.monitor, c.probe), c.probe, Effect(db, c);
    AppendGrows(db.incidents, i);
    forall j | j in db.outbox ensures Sourced(t, j) { SourcedGrows(db, t, j); }
    var job := NotifyJob(MonitorDown, c.monitor, p.incidentId, p.incidentEventId);
    assert i in t.incidents && StartOf(i) in t.events;
    assert Sourced(t, job);
  }

  lemma ResolvedRow(db: Tables, c: Check, k: nat)
    requires c.stage.Resolving? && Consistent(db) && Prepared(db, c) && OwnsFound(db, c) && k < |db.incidents|
    ensures Documented(db.events, ResolveRows(db.incidents, c.stage.found, c.probe.at, c.probe.incidentEventId)[k])
  {
    assert db.incidents[k] in db.incidents;
  }

  /** The incidents stay documented when one is resolved. */
  lemma ResolvedRows(db: Tables, c: Check)
    requires c.stage.Resolving? && Consistent(db) && Prepared(db, c) && OwnsFound(db, c)
    ensures var after := ResolveRows(db.incidents, c.stage.found, c.probe.at, c.probe.incidentEventId);
      forall i | i in after :: Documented(db.events, i)
  {
    var after := ResolveRows(db.incidents, c.stage.found, c.probe.at, c.probe.incidentEventId);
    forall i | i in after ensures Documented(db.events, i) {
      var k :| 0 <= k < |after| && after[k] == i;
      ResolvedRow(db, c, k);
    }
  }

  lemma ResolvedJob(db: Tables, c: Check, t: Tables)
    requires c.stage.Resolving? && Prepared(db, c) && FoundRow(db, c)
    requires t.events == db.events && Grows(db.incidents, t.incidents)
    ensures Sourced(t, NotifyJob(MonitorRecovered, c.monitor, c.stage.found, c.probe.incidentEventId))
  {
    var k :| 0 <= k < |db.incidents| && db.incidents[k].id == c.stage.found && db.incidents[k].monitor == c.monitor;
    assert t.incidents[k] in t.incidents;
  }

  lemma ResolvingCompletes(db: Tables, c: Check)
    requires c.stage.Resolving? && Consistent(db) && Prepared(db, c)
    requires DistinctIncidents(db) && FoundRow(db, c)
    ensures Consistent(Effect(db, c))
  {
    var p, t := c.probe, Effect(db, c);
    if !Resolvable(db.incidents, c.stage.found) { return; }
    FoundRowOwned(db, c);
    ResolveGrows(db.incidents, c.stage.found, p.at, p.incidentEventId);
    ResolvedRows(db, c);
    forall j | j in db.outbox ensures Sourced(t, j) { SourcedGrows(db, t, j); }
    ResolvedJob(db, c, t);
  }

  lemma CallCompletes(db: Tables, c: Check)
    requires !c.stage.Finished? && Consistent(db) && Prepared(db, c) && DistinctIncidents(db) && FoundRow(db, c)
    requires MayOpen(c) ==> !HasId(db.incidents, c.probe.incidentId)
    ensures var next := Advance(db, c);
      Consistent(next.0) && Prepared(next.0, next.1) && forall e | e in db.events :: e in next.0.events
  {
    if Fails(c) { return; }
    var p := c.probe;
    match c.stage
    case Changing(s) => LogEvent(db, Event(p.changeId, StateChanged(s.state, TransitionOf(s, p).to), c.monitor, p.at));
    case Announcing(_) => LogEvent(db, Event(p.incidentEventId, IncidentOpened, c.monitor, p.at));
    case Concluding(_, _) => LogEvent(db, Event(p.incidentEventId, IncidentResolved, c.monitor, p.at));
    case Opening(_) => OpeningCompletes(db, c);
    case Resolving(_, _) => ResolvingCompletes(db, c);
    case _ =>
  }

  lemma StepCompletes(db: Tables, r: Request)
    requires Keyed(db) && Settling(db, r) && Consistent(db)
    ensures Consistent(Step(db, r).0) && forall e | e in db.events :: e in Step(db, r).0.events
  {
    StepKeepsRows(db, r);
    var t := Step(db, r).0;
    forall j | j in db.outbox ensures Sourced(t, j) { SourcedGrows(db, t, j); }
  }

  ghost predicate AllPrepared(e: Engine) { forall w | w in e.runs :: Prepared(e.db, e.runs[w]) }

  lemma DoCompletes(e: Engine, a: Act)
    requires Tracked(e) && Consistent(e.db) && AllPrepared(e) && Allowed(e, a)
    ensures Consistent(Do(e, a).db) && AllPrepared(Do(e, a))
  {
    match a
    case StartCheck(_, _, _) =>
    case NextCall(w) => CallCompletes(e.db, e.runs[w]);
    case StartRequest(_, _) =>
    case NextStep(k) => StepCompletes(e.db, e.requests[k]);
  }

  lemma {:induction false} ScheduleCompletes(e: Engine, acts: seq<Act>)
    requires Tracked(e) && Consistent(e.db) && AllPrepared(e) && Schedule(e, acts)
    ensures Consistent(After(e, acts).db)
    decreases |acts|
  {
    if acts == [] {
    } else {
      DoTracked(e, acts[0]);
      DoCompletes(e, acts[0]);
      ScheduleCompletes(Do(e, acts[0]), acts[1..]);
    }
  }

  /** From tables that agree with their log, in every interleaving with any faults: each incident's start, and its
      end if it has one, is in the event log under the id, monitor and time the incident records; each enqueued
      job names such an event and an incident of its own monitor. */
  lemma IncidentsAreDocumented(start: Tables, acts: seq<Act>)
    requires DistinctIncidents(start) && Keyed(start) && Consistent(start) && Schedule(Engine(start, map[], map[]), acts)
    ensures var db := After(Engine(start, map[], map[]), acts).db;
      && (forall i | i in db.incidents :: Documented(db.events, i))
      && (forall j | j in db.outbox :: Sourced(db, j))
  {
    ScheduleCompletes(Engine(start, map[], map[]), acts);
  }
}
