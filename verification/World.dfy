/** Whole runs of the check engine: checks and lifecycle operations, each with its own faults,
    one after the other on shared tables. */
module World {
  import opened Common
  import opened Monitors
  import opened Store
  import opened CheckRun
  import Service = ServiceSpec

  datatype Op =
    | CheckOp(id: Id, probe: Probe)
    | CreateOp(input: Monitor, id: Id, restValid: bool, ctx: Service.Context)
    | UpdateOp(input: Monitor, restValid: bool, ctx: Service.Context)
    | DeleteOp(id: Id, ctx: Service.Context)
    | ToggleOp(id: Id, enabled: bool, ctx: Service.Context)

  const EMPTY := Tables(map[], map[], [], [], [], [])

  function Lifecycle(db: Tables, op: Op): (Tables, Service.Outcome) {
    match op
    case CheckOp(id, p) => (RunCheck(db, id, p), Service.Unchanged)
    case CreateOp(m, id, valid, ctx) => Service.Create(db, m, id, valid, ctx)
    case UpdateOp(m, valid, ctx) => Service.Update(db, m, valid, ctx)
    case DeleteOp(id, ctx) => Service.Delete(db, id, ctx)
    case ToggleOp(id, enabled, ctx) => Service.SetEnabled(db, id, enabled, ctx)
  }

  function Apply(db: Tables, op: Op): Tables { Lifecycle(db, op).0 }

  ghost predicate FaultFree(op: Op) {
    match op
    case CheckOp(_, p) => p.fails == {}
    case CreateOp(_, _, _, ctx) => ctx.fails == {}
    case UpdateOp(_, _, ctx) => ctx.fails == {}
    case DeleteOp(_, ctx) => ctx.fails == {}
    case ToggleOp(_, _, ctx) => ctx.fails == {}
  }

  /** The incident id drawn by a check is new. */
  ghost predicate Fresh(db: Tables, op: Op) {
    op.CheckOp? ==> forall i | i in db.incidents :: i.id != op.probe.incidentId
  }

  ghost predicate FreshRun(db: Tables, ops: seq<Op>)
    decreases |ops|
  {
    ops == [] || (Fresh(db, ops[0]) && FreshRun(Apply(db, ops[0]), ops[1..]))
  }

  ghost function Run(db: Tables, ops: seq<Op>): Tables
    decreases |ops|
  {
    if ops == [] then db else Run(Apply(db, ops[0]), ops[1..])
  }

  ghost predicate AllFaultFree(ops: seq<Op>) { forall op | op in ops :: FaultFree(op) }

  /** How many operations of a run, each looked at together with the tables it meets, satisfy `p`. */
  ghost function Tally(db: Tables, ops: seq<Op>, p: (Tables, Op) -> bool): nat
    decreases |ops|
  {
    if ops == [] then 0 else (if p(db, ops[0]) then 1 else 0) + Tally(Apply(db, ops[0]), ops[1..], p)
  }

  // ---- the rows a toggle writes ----

  predicate TogglesMonitor(db: Tables, op: Op)
    requires op.ToggleOp?
  {
    Service.GetMonitor !in op.ctx.fails && Live(db.monitors, op.id) && db.monitors[op.id].enabled != op.enabled
    && Service.UpdateMonitor !in op.ctx.fails
  }

  predicate TogglesState(db: Tables, op: Op)
    requires op.ToggleOp?
  {
    TogglesMonitor(db, op) && op.id in db.states
    && Service.ReadState !in op.ctx.fails && Service.WriteState !in op.ctx.fails
  }

  lemma ToggleWritten(db: Tables, op: Op)
    requires op.ToggleOp?
    ensures var t := Apply(db, op);
      && t.checks == db.checks && t.incidents == db.incidents && t.outbox == db.outbox
      && t.monitors == (if TogglesMonitor(db, op)
                        then db.monitors[op.id := Stored(db.monitors[op.id].(enabled := op.enabled))] else db.monitors)
      && t.states == (if TogglesState(db, op)
                      then db.states[op.id := db.states[op.id]
                                         .(state := Service.InitialState(op.enabled), updatedAt := op.ctx.at)]
                      else db.states)
  {
    if !TogglesMonitor(db, op) {
    } else if !TogglesState(db, op) {
      assert Apply(db, op).states == db.states;
    }
  }

  // ---- the effect of a check in closed form ----

  function Recorded(db: Tables, id: Id, p: Probe): Tables
    requires id in db.states
  {
    db.(checks := db.checks + [CheckRow(p.checkId, id, p.success, TransitionOf(db.states[id], p).to, p.at)])
  }

  function Announced(db: Tables, id: Id, p: Probe, kind: EventKind, eventId: Id): Tables {
    db.(events := db.events + [Event(eventId, kind, id, p.at)])
  }

  function Saved(db: Tables, id: Id, p: Probe): Tables
    requires id in db.states
  {
    if UpsertState in p.fails then db
    else db.(states := db.states[id := NextStatus(db.states[id], p)])
  }

  function Opened(db: Tables, id: Id, p: Probe): Tables
    requires id in db.states
  {
    if InsertOpened in p.fails then db else
    var db1 := Announced(db, id, p, IncidentOpened, p.incidentEventId);
    if OpenIncident in p.fails then db1 else
    Saved(Enqueue(db1.(incidents := db1.incidents + [NewIncident(id, p)]), p,
                  NotifyJob(MonitorDown, id, p.incidentId, p.incidentEventId)), id, p)
  }

  function Closed(db: Tables, id: Id, p: Probe): Tables
    requires id in db.states
  {
    var r := FindOpen(db.incidents, id);
    if FindOpenIncident in p.fails || r == None || InsertResolved in p.fails then db else
    var found := db.incidents[r.value].id;
    var db1 := Announced(db, id, p, IncidentResolved, p.incidentEventId);
    if ResolveIncident in p.fails then db1 else
    Saved(Enqueue(db1.(incidents := ResolveRows(db1.incidents, found, p.at, p.incidentEventId)), p,
                  NotifyJob(MonitorRecovered, id, found, p.incidentEventId)), id, p)
  }

  /** The straight-line reading of a check. */
  function CheckEffect(db: Tables, id: Id, p: Probe): Tables {
    if GetState in p.fails || id !in db.states || InsertCheck in p.fails then db else
    var t := TransitionOf(db.states[id], p);
    var db1 := Recorded(db, id, p);
    if !t.emitStateChange then Saved(db1, id, p) else
    if InsertChange in p.fails then db1 else
    var db2 := Announced(db1, id, p, StateChanged(t.from, t.to), p.changeId);
    if t.openIncident then Opened(db2, id, p)
    else if t.resolveIncident then Closed(db2, id, p)
    else Saved(db2, id, p)
  }

  lemma CompleteSaving(db: Tables, c: Check)
    requires c.stage.Saving? && c.monitor in db.states && c.stage.status == db.states[c.monitor]
    ensures Complete((db, c)) == Saved(db, c.monitor, c.probe)
  {}

  lemma CompleteAnnouncing(db: Tables, c: Check)
    requires c.stage.Announcing? && c.monitor in db.states && c.stage.status == db.states[c.monitor]
    ensures Complete((db, c)) == Opened(db, c.monitor, c.probe)
  {
    var x1 := Then((db, c));
    var x2 := Then(x1);
    assert Complete((db, c)) == Complete(x1) == Complete(x2);
    if x2.1.stage.Saving? { CompleteSaving(x2.0, x2.1); }
  }

  lemma CompleteResolving(db: Tables, c: Check)
    requires c.stage.Resolving? && c.monitor in db.states && c.stage.status == db.states[c.monitor]
    requires Resolvable(db.incidents, c.stage.found)
    ensures var p, found := c.probe, c.stage.found;
      Complete((db, c)) ==
        if ResolveIncident in p.fails then db
        else Saved(Enqueue(db.(incidents := ResolveRows(db.incidents, found, p.at, p.incidentEventId)), p,
                           NotifyJob(MonitorRecovered, c.monitor, found, p.incidentEventId)), c.monitor, p)
  {
    var x1 := Then((db, c));
    assert Complete((db, c)) == Complete(x1);
    if ResolveIncident in c.probe.fails {
      assert x1 == (db, c.(stage := Finished(false)));
    } else {
      assert x1 == (Effect(db, c), c.(stage := Saving(c.stage.status)));
      CompleteSaving(x1.0, x1.1);
    }
  }

  lemma CompleteFinding(db: Tables, c: Check)
    requires c.stage.Finding? && c.monitor in db.states && c.stage.status == db.states[c.monitor]
    ensures Complete((db, c)) == Closed(db, c.monitor, c.probe)
  {
    var x1 := Then((db, c));
    var x2 := Then(x1);
    assert Complete((db, c)) == Complete(x1) == Complete(x2);
    if x2.1.stage.Resolving? { CompleteResolving(x2.0, x2.1); }
  }

  /** Making the store calls one by one comes to the straight-line reading. */
  lemma CheckInClosedForm(db: Tables, id: Id, p: Probe)
    ensures RunCheck(db, id, p) == CheckEffect(db, id, p)
  {
    var x1 := Then((db, Begin(id, p)));
    assert RunCheck(db, id, p) == Complete(x1);
    if x1.1.stage.Finished? { return; }
    var x2 := Then(x1);
    assert Complete(x1) == Complete(x2);
    if x2.1.stage.Finished? { return; }
    var x3 := if x2.1.stage.Changing? then Then(x2) else x2;
    assert Complete(x2) == Complete(x3);
    match x3.1.stage
    case Saving(_) => CompleteSaving(x3.0, x3.1);
    case Announcing(_) => CompleteAnnouncing(x3.0, x3.1);
    case Finding(_) => CompleteFinding(x3.0, x3.1);
    case _ =>
  }

  // ---- which rows a check writes ----

  /** The run gets past its state-change event, if it has one. */
  predicate Underway(db: Tables, id: Id, p: Probe) {
    && id in db.states && GetState !in p.fails && InsertCheck !in p.fails
    && (TransitionOf(db.states[id], p).emitStateChange ==> InsertChange !in p.fails)
  }

  predicate OpensIncident(db: Tables, id: Id, p: Probe) {
    Underway(db, id, p) && TransitionOf(db.states[id], p).openIncident
    && InsertOpened !in p.fails && OpenIncident !in p.fails
  }

  predicate ResolvesIncident(db: Tables, id: Id, p: Probe) {
    Underway(db, id, p) && TransitionOf(db.states[id], p).resolveIncident && FindOpen(db.incidents, id).Some?
    && FindOpenIncident !in p.fails && InsertResolved !in p.fails && ResolveIncident !in p.fails
  }

  predicate SavesState(db: Tables, id: Id, p: Probe) {
    && Underway(db, id, p) && UpsertState !in p.fails
    && (TransitionOf(db.states[id], p).openIncident ==> OpensIncident(db, id, p))
    && (TransitionOf(db.states[id], p).resolveIncident ==> ResolvesIncident(db, id, p))
  }

  /** The open incident that a recovery of `id` picks. */
  function Picked(db: Tables, id: Id): Id
    requires FindOpen(db.incidents, id).Some?
  {
    db.incidents[FindOpen(db.incidents, id).value].id
  }

  function IncidentsAfter(db: Tables, id: Id, p: Probe): seq<Incident> {
    if OpensIncident(db, id, p) then db.incidents + [NewIncident(id, p)]
    else if ResolvesIncident(db, id, p) then ResolveRows(db.incidents, Picked(db, id), p.at, p.incidentEventId)
    else db.incidents
  }

  function JobsOf(db: Tables, id: Id, p: Probe): seq<NotifyJob> {
    if !p.Notifies() then []
    else if OpensIncident(db, id, p) then [NotifyJob(MonitorDown, id, p.incidentId, p.incidentEventId)]
    else if ResolvesIncident(db, id, p) then [NotifyJob(MonitorRecovered, id, Picked(db, id), p.incidentEventId)]
    else []
  }

  lemma OpenedStates(db: Tables, id: Id, p: Probe)
    requires id in db.states
    ensures Opened(db, id, p).monitors == db.monitors
    ensures Opened(db, id, p).states
         == if InsertOpened in p.fails || OpenIncident in p.fails || UpsertState in p.fails then db.states
            else db.states[id := NextStatus(db.states[id], p)]
  {}

  lemma ClosedStates(db: Tables, id: Id, p: Probe)
    requires id in db.states
    ensures Closed(db, id, p).monitors == db.monitors
    ensures Closed(db, id, p).states
         == if FindOpen(db.incidents, id) == None || FindOpenIncident in p.fails || InsertResolved in p.fails
               || ResolveIncident in p.fails || UpsertState in p.fails then db.states
            else db.states[id := NextStatus(db.states[id], p)]
  {
    if FindOpenIncident in p.fails || FindOpen(db.incidents, id) == None || InsertResolved in p.fails { return; }
    if ResolveIncident in p.fails { return; }
    assert forall d: Tables | id in d.states ::
        Saved(d, id, p).states == if UpsertState in p.fails then d.states else d.states[id := NextStatus(d.states[id], p)];
  }

  lemma StatesWritten(db: Tables, id: Id, p: Probe)
    ensures CheckEffect(db, id, p).monitors == db.monitors
    ensures CheckEffect(db, id, p).states
         == if SavesState(db, id, p) then db.states[id := NextStatus(db.states[id], p)] else db.states
  {
    if !Underway(db, id, p) { return; }
    var t := TransitionOf(db.states[id], p);
    var db1 := Recorded(db, id, p);
    if !t.emitStateChange { return; }
    var db2 := Announced(db1, id, p, StateChanged(t.from, t.to), p.changeId);
    assert db2.states == db.states && db2.monitors == db.monitors && db2.incidents == db.incidents;
    if t.openIncident {
      OpenedStates(db2, id, p);
    } else if t.resolveIncident {
      ClosedStates(db2, id, p);
    }
  }

  lemma OpenedIncidents(db: Tables, id: Id, p: Probe)
    requires id in db.states
    ensures Opened(db, id, p).incidents
         == db.incidents + if InsertOpened in p.fails || OpenIncident in p.fails then [] else [NewIncident(id, p)]
  {
    assert db.incidents + [] == db.incidents;
  }

  lemma ClosedIncidents(db: Tables, id: Id, p: Probe)
    requires id in db.states
    ensures Closed(db, id, p).incidents
         == if FindOpen(db.incidents, id) == None || FindOpenIncident in p.fails || InsertResolved in p.fails
               || ResolveIncident in p.fails then db.incidents
            else ResolveRows(db.incidents, Picked(db, id), p.at, p.incidentEventId)
  {
    if FindOpenIncident in p.fails || FindOpen(db.incidents, id) == None || InsertResolved in p.fails { return; }
    if ResolveIncident in p.fails { return; }
    var db1 := Announced(db, id, p, IncidentResolved, p.incidentEventId);
    assert forall d: Tables | id in d.states :: Saved(d, id, p).incidents == d.incidents;
  }

  lemma IncidentsWritten(db: Tables, id: Id, p: Probe)
    ensures CheckEffect(db, id, p).incidents == IncidentsAfter(db, id, p)
  {
    if !Underway(db, id, p) { return; }
    var t := TransitionOf(db.states[id], p);
    var db1 := Recorded(db, id, p);
    if !t.emitStateChange { return; }
    var db2 := Announced(db1, id, p, StateChanged(t.from, t.to), p.changeId);
    if t.openIncident {
      OpenedIncidents(db2, id, p);
      assert db.incidents + [] == db.incidents;
    } else if t.resolveIncident {
      ClosedIncidents(db2, id, p);
    }
  }

  lemma OpenedJobs(db: Tables, id: Id, p: Probe)
    requires id in db.states
    ensures Opened(db, id, p).outbox
         == db.outbox + if InsertOpened in p.fails || OpenIncident in p.fails || !p.Notifies() then []
                        else [NotifyJob(MonitorDown, id, p.incidentId, p.incidentEventId)]
  {
    assert db.outbox + [] == db.outbox;
  }

  lemma ClosedJobs(db: Tables, id: Id, p: Probe)
    requires id in db.states
    ensures Closed(db, id, p).outbox
         == db.outbox + if FindOpen(db.incidents, id) == None || FindOpenIncident in p.fails || InsertResolved in p.fails
                           || ResolveIncident in p.fails || !p.Notifies() then []
                        else [NotifyJob(MonitorRecovered, id, Picked(db, id), p.incidentEventId)]
  {
    assert db.outbox + [] == db.outbox;
  }

  lemma JobsWritten(db: Tables, id: Id, p: Probe)
    ensures CheckEffect(db, id, p).outbox == db.outbox + JobsOf(db, id, p)
  {
    assert db.outbox + [] == db.outbox;
    if !Underway(db, id, p) { return; }
    var t := TransitionOf(db.states[id], p);
    var db1 := Recorded(db, id, p);
    if !t.emitStateChange { return; }
    var db2 := Announced(db1, id, p, StateChanged(t.from, t.to), p.changeId);
    assert db2.outbox == db.outbox && db2.states == db.states && db2.incidents == db.incidents;
    if t.openIncident {
      OpenedJobs(db2, id, p);
    } else if t.resolveIncident {
      ClosedJobs(db2, id, p);
    }
  }

  /** What a check leaves in the tables, as a function of what it met and what failed. */
  lemma CheckSummary(db: Tables, id: Id, p: Probe)
    ensures var t := RunCheck(db, id, p);
      && t.monitors == db.monitors
      && t.states == (if SavesState(db, id, p) then db.states[id := NextStatus(db.states[id], p)] else db.states)
      && t.incidents == IncidentsAfter(db, id, p)
      && t.outbox == db.outbox + JobsOf(db, id, p)
  {
    CheckInClosedForm(db, id, p);
    StatesWritten(db, id, p);
    IncidentsWritten(db, id, p);
    JobsWritten(db, id, p);
  }
}
