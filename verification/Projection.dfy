/** One monitor's rows: every store call and lifecycle operation reads and writes the rows of its own
    monitor only, so it can be replayed on them alone. */
module Projection {
  import opened Common
  import opened Monitors
  import opened Store
  import opened Text
  import opened CheckRun
  import opened World
  import Service = ServiceSpec

  function ChecksOf(id: Id): CheckRow -> bool { (r: CheckRow) => r.monitor == id }
  function EventsOf(id: Id): Event -> bool { (e: Event) => e.monitor == id }
  function IncidentsOf(id: Id): Incident -> bool { (i: Incident) => i.monitor == id }
  function JobsFor(id: Id): NotifyJob -> bool { (j: NotifyJob) => j.monitor == id }

  function Only<V>(m: map<Id, V>, id: Id): map<Id, V> { if id in m then map[id := m[id]] else map[] }

  /** The rows of monitor `id`. */
  ghost function Project(db: Tables, id: Id): Tables {
    Tables(Only(db.monitors, id), Only(db.states, id), Filter(db.checks, ChecksOf(id)), Filter(db.events, EventsOf(id)),
           Filter(db.incidents, IncidentsOf(id)), Filter(db.outbox, JobsFor(id)))
  }

  // ---- incidents ----

  lemma FindOpenSnoc(xs: seq<Incident>, y: Incident, id: Id)
    ensures var r := FindOpen(xs, id);
      FindOpen(xs + [y], id) ==
        if IsOpen(y, id) && (r == None || TextLess(xs[r.value].startedAt, y.startedAt)) then Some(|xs|) else r
  {
    assert (xs + [y])[..|xs|] == xs;
  }

  /** Filtering by monitor changes neither whether an open incident is found nor which one. */
  lemma {:induction false} FindOpenProjects(incidents: seq<Incident>, id: Id)
    ensures var mine := Filter(incidents, IncidentsOf(id));
      var r, s := FindOpen(incidents, id), FindOpen(mine, id);
      (r.Some? <==> s.Some?) && (r.Some? ==> incidents[r.value] == mine[s.value])
  {
    if incidents == [] { return; }
    var n := |incidents| - 1;
    var before, last := incidents[..n], incidents[n];
    assert incidents == before + [last];
    FindOpenProjects(before, id);
    FilterAppend(before, last, IncidentsOf(id));
    FindOpenSnoc(before, last, id);
    FindOpenSnoc(Filter(before, IncidentsOf(id)), last, id);
  }

  /** The incident with this id, if any, belongs to the monitor. */
  ghost predicate Owned(incidents: seq<Incident>, found: Id, id: Id) {
    forall i | i in incidents :: i.id == found ==> i.monitor == id
  }

  lemma {:induction false} ResolveProjects(incidents: seq<Incident>, found: Id, at: Stamp, event: Id, owner: Id, id: Id)
    requires Owned(incidents, found, owner)
    ensures var r := Filter(ResolveRows(incidents, found, at, event), IncidentsOf(id));
      r == if id == owner then ResolveRows(Filter(incidents, IncidentsOf(id)), found, at, event)
           else Filter(incidents, IncidentsOf(id))
  {
    if incidents == [] { return; }
    var rest := incidents[1..];
    assert incidents == [incidents[0]] + rest;
    ResolveProjects(rest, found, at, event, owner, id);
    var r, p := ResolveRows(incidents, found, at, event), IncidentsOf(id);
    assert r[1..] == ResolveRows(rest, found, at, event);
    var mine := Filter(rest, p);
    if incidents[0].monitor == id {
      assert Filter(r, p) == [r[0]] + Filter(r[1..], p);
      assert Filter(incidents, p) == [incidents[0]] + mine;
      assert ([incidents[0]] + mine)[1..] == mine;
    } else {
      assert Filter(r, p) == Filter(r[1..], p) && Filter(incidents, p) == mine;
    }
  }

  lemma ResolvableProjects(incidents: seq<Incident>, found: Id, id: Id)
    requires Owned(incidents, found, id)
    ensures Resolvable(incidents, found) <==> Resolvable(Filter(incidents, IncidentsOf(id)), found)
  {
    FilterHas(incidents, IncidentsOf(id));
    var mine := Filter(incidents, IncidentsOf(id));
    if Resolvable(incidents, found) {
      var i :| 0 <= i < |incidents| && incidents[i].id == found && incidents[i].resolvedAt == None;
      assert incidents[i] in incidents;
      var k :| 0 <= k < |mine| && mine[k] == incidents[i];
    }
    if Resolvable(mine, found) {
      var k :| 0 <= k < |mine| && mine[k].id == found && mine[k].resolvedAt == None;
      assert mine[k] in mine;
      var i :| 0 <= i < |incidents| && incidents[i] == mine[k];
    }
  }

  // ---- one store call ----

  /** The incident a run is about to resolve belongs to its monitor. */
  ghost predicate OwnsFound(db: Tables, c: Check) {
    c.stage.Concluding? || c.stage.Resolving? ==> Owned(db.incidents, c.stage.found, c.monitor)
  }

  lemma CheckRowProjects(db: Tables, row: CheckRow, id: Id)
    ensures Project(db.(checks := db.checks + [row]), id)
         == if row.monitor == id then Project(db, id).(checks := Project(db, id).checks + [row]) else Project(db, id)
  {
    FilterAppend(db.checks, row, ChecksOf(id));
  }

  lemma EventProjects(db: Tables, e: Event, id: Id)
    ensures Project(db.(events := db.events + [e]), id)
         == if e.monitor == id then Project(db, id).(events := Project(db, id).events + [e]) else Project(db, id)
  {
    FilterAppend(db.events, e, EventsOf(id));
  }

  lemma IncidentProjects(db: Tables, i: Incident, id: Id)
    ensures Project(db.(incidents := db.incidents + [i]), id)
         == if i.monitor == id then Project(db, id).(incidents := Project(db, id).incidents + [i]) else Project(db, id)
  {
    FilterAppend(db.incidents, i, IncidentsOf(id));
  }

  lemma EnqueueProjects(db: Tables, p: Probe, job: NotifyJob, id: Id)
    ensures Project(Enqueue(db, p, job), id)
         == if job.monitor == id then Enqueue(Project(db, id), p, job) else Project(db, id)
  {
    FilterAppend(db.outbox, job, JobsFor(id));
  }

  lemma MonitorProjects(db: Tables, key: Id, m: Monitor, id: Id)
    ensures Project(db.(monitors := db.monitors[key := m]), id)
         == if key == id then Project(db, id).(monitors := Project(db, id).monitors[key := m]) else Project(db, id)
  {}

  lemma StateProjects(db: Tables, key: Id, s: Status, id: Id)
    ensures Project(db.(states := db.states[key := s]), id)
         == if key == id then Project(db, id).(states := Project(db, id).states[key := s]) else Project(db, id)
  {}

  lemma ResolvingProjects(db: Tables, c: Check, id: Id)
    requires c.stage.Resolving? && OwnsFound(db, c)
    ensures Project(Effect(db, c), id) == if c.monitor == id then Effect(Project(db, id), c) else Project(db, id)
  {
    var p, found := c.probe, c.stage.found;
    ResolvableProjects(db.incidents, found, c.monitor);
    ResolveProjects(db.incidents, found, p.at, p.incidentEventId, c.monitor, id);
    EnqueueProjects(db.(incidents := ResolveRows(db.incidents, found, p.at, p.incidentEventId)), p,
                    NotifyJob(MonitorRecovered, c.monitor, found, p.incidentEventId), id);
  }

  lemma OpeningProjects(db: Tables, c: Check, id: Id)
    requires c.stage.Opening?
    ensures Project(Effect(db, c), id) == if c.monitor == id then Effect(Project(db, id), c) else Project(db, id)
  {
    var p, i := c.probe, NewIncident(c.monitor, c.probe);
    IncidentProjects(db, i, id);
    EnqueueProjects(db.(incidents := db.incidents + [i]), p,
                    NotifyJob(MonitorDown, c.monitor, p.incidentId, p.incidentEventId), id);
  }

  lemma EffectProjects(db: Tables, c: Check, id: Id)
    requires OwnsFound(db, c)
    ensures Project(Effect(db, c), id) == if c.monitor == id then Effect(Project(db, id), c) else Project(db, id)
  {
    var p := c.probe;
    match c.stage
    case Recording(s) =>
      CheckRowProjects(db, CheckRow(p.checkId, c.monitor, p.success, TransitionOf(s, p).to, p.at), id);
    case Changing(s) =>
      EventProjects(db, Event(p.changeId, StateChanged(s.state, TransitionOf(s, p).to), c.monitor, p.at), id);
    case Announcing(_) => EventProjects(db, Event(p.incidentEventId, IncidentOpened, c.monitor, p.at), id);
    case Opening(_) => OpeningProjects(db, c, id);
    case Concluding(_, _) => EventProjects(db, Event(p.incidentEventId, IncidentResolved, c.monitor, p.at), id);
    case Resolving(_, _) => ResolvingProjects(db, c, id);
    case Saving(s) => StateProjects(db, c.monitor, NextStatus(s, p), id);
    case _ =>
  }

  lemma FollowingProjects(db: Tables, c: Check)
    requires !c.stage.Finished? && OwnsFound(db, c)
    ensures Following(db, c) == Following(Project(db, c.monitor), c)
  {
    FindOpenProjects(db.incidents, c.monitor);
    if c.stage.Resolving? { ResolvableProjects(db.incidents, c.stage.found, c.monitor); }
  }

  /** A store call acts on its monitor's rows as it would if there were no others, and on no other rows. */
  lemma CallProjects(db: Tables, c: Check, id: Id)
    requires !c.stage.Finished? && OwnsFound(db, c)
    ensures c.monitor == id ==>
      (Project(Advance(db, c).0, id), Advance(db, c).1) == Advance(Project(db, id), c)
    ensures c.monitor != id ==> Project(Advance(db, c).0, id) == Project(db, id)
  {
    if !Fails(c) {
      EffectProjects(db, c, id);
      FollowingProjects(db, c);
    }
  }

  // ---- lifecycle operations ----

  /** The monitor an operation is about. */
  function Target(op: Op): Id {
    match op
    case CheckOp(id, _) => id
    case CreateOp(_, id, _, _) => id
    case UpdateOp(m, _, _) => m.id
    case DeleteOp(id, _) => id
    case ToggleOp(id, _, _) => id
  }

  /** Rows are stored under their own ids, and a state row refers to a monitor row. */
  ghost predicate Keyed(db: Tables) {
    OwnIds(db.monitors) && db.states.Keys <= db.monitors.Keys
  }

  lemma RecordProjects(db: Tables, kind: EventKind, m: Monitor, ctx: Service.Context, id: Id)
    ensures Project(Service.Record(db, kind, m, ctx).0, id)
         == if m.id == id then Service.Record(Project(db, id), kind, m, ctx).0 else Project(db, id)
  {
    EventProjects(db, Event(ctx.eventId, kind, m.id, ctx.at), id);
  }

  lemma CreateProjects(db: Tables, op: Op, id: Id)
    requires op.CreateOp?
    ensures Project(Apply(db, op), id) == if op.id == id then Apply(Project(db, id), op) else Project(db, id)
  {
    var m := op.input.(id := op.id, deleted := false);
    var db1 := db.(monitors := db.monitors[op.id := Stored(m)]);
    var st := Service.InitialStatus(m.enabled, op.ctx.at);
    MonitorProjects(db, op.id, Stored(m), id);
    StateProjects(db1, op.id, st, id);
    RecordProjects(db1.(states := db1.states[op.id := st]), Created, m, op.ctx, id);
  }

  lemma UpdateProjects(db: Tables, op: Op, id: Id)
    requires op.UpdateOp?
    ensures Project(Apply(db, op), id) == if op.input.id == id then Apply(Project(db, id), op) else Project(db, id)
  {
    if Live(db.monitors, op.input.id) {
      var m := op.input.(enabled := db.monitors[op.input.id].enabled, deleted := false);
      MonitorProjects(db, m.id, Stored(m), id);
      RecordProjects(db.(monitors := db.monitors[m.id := Stored(m)]), Updated, m, op.ctx, id);
    }
  }

  lemma DeleteProjects(db: Tables, op: Op, id: Id)
    requires op.DeleteOp? && Keyed(db)
    ensures Project(Apply(db, op), id) == if op.id == id then Apply(Project(db, id), op) else Project(db, id)
  {
    if Live(db.monitors, op.id) {
      var m := db.monitors[op.id];
      MonitorProjects(db, op.id, m.(deleted := true), id);
      RecordProjects(db.(monitors := db.monitors[op.id := m.(deleted := true)]), Deleted, m, op.ctx, id);
    }
  }

  lemma ToggleProjects(db: Tables, op: Op, id: Id)
    requires op.ToggleOp? && Keyed(db)
    ensures Project(Apply(db, op), id) == if op.id == id then Apply(Project(db, id), op) else Project(db, id)
  {
    if !TogglesMonitor(db, op) { return; }
    var m := db.monitors[op.id].(enabled := op.enabled);
    var db1 := db.(monitors := db.monitors[op.id := Stored(m)]);
    MonitorProjects(db, op.id, Stored(m), id);
    if !TogglesState(db, op) { return; }
    var st := db.states[op.id].(state := Service.InitialState(op.enabled), updatedAt := op.ctx.at);
    StateProjects(db1, op.id, st, id);
    RecordProjects(db1.(states := db1.states[op.id := st]), if op.enabled then Enabled else Disabled, m, op.ctx, id);
  }

  lemma LifecycleProjects(db: Tables, op: Op, id: Id)
    requires !op.CheckOp? && Keyed(db)
    ensures Project(Apply(db, op), id) == if Target(op) == id then Apply(Project(db, id), op) else Project(db, id)
  {
    match op
    case CreateOp(_, _, _, _) => CreateProjects(db, op, id);
    case UpdateOp(_, _, _) => UpdateProjects(db, op, id);
    case DeleteOp(_, _) => DeleteProjects(db, op, id);
    case ToggleOp(_, _, _) => ToggleProjects(db, op, id);
  }
}
