/** One check of a monitor, from the probe's outcome to the state row, as the sequence of store calls
    that the check pipeline makes. Every call may fail; a failed call ends the run there and leaves
    the rows it was meant to write untouched. */
module CheckRun {
  import opened Common
  import opened Monitors
  import opened Store

  datatype Call =
    | GetState | InsertCheck | InsertChange | InsertOpened | OpenIncident
    | FindOpenIncident | InsertResolved | ResolveIncident | UpsertState

  /** What a run is given: the probe's outcome, fresh ids, the calls that fail during this run, whether a
      notifier is wired, whether the monitor wants notifications, and the gate if there is one. */
  datatype Probe = Probe(
    success: bool, at: Stamp, reason: string, checkId: Id, changeId: Id, incidentEventId: Id, incidentId: Id,
    fails: set<Call>, wired: bool, wanted: bool, gate: Option<bool>)
  {
    predicate Notifies() { wired && wanted && gate != Some(false) }
  }

  /** The next call of a run, with the local variables it has by then. */
  datatype Stage =
    | Getting
    | Recording(status: Status)
    | Changing(status: Status)
    | Announcing(status: Status)
    | Opening(status: Status)
    | Finding(status: Status)
    | Concluding(status: Status, found: Id)
    | Resolving(status: Status, found: Id)
    | Saving(status: Status)
    | Finished(ok: bool)

  /** The run has read the state row and may still write it. */
  predicate HasRead(stage: Stage) { !stage.Getting? && !stage.Finished? }

  datatype Check = Check(monitor: Id, probe: Probe, stage: Stage)

  function Begin(monitor: Id, probe: Probe): Check { Check(monitor, probe, Getting) }

  function InputOf(p: Probe): StateInput { if p.success then Success else Failure }

  function TransitionOf(status: Status, p: Probe): Transition { NextState(status.state, InputOf(p)) }

  /** The stage that follows the state-change event. */
  function AfterChange(status: Status, p: Probe): Stage {
    var t := TransitionOf(status, p);
    if t.openIncident then Announcing(status)
    else if t.resolveIncident then Finding(status)
    else Saving(status)
  }

  function NextStatus(status: Status, p: Probe): Status {
    var s := status.(state := TransitionOf(status, p).to, lastCheckId := Some(p.checkId),
                     lastCheckedAt := Some(p.at), updatedAt := p.at);
    if p.success
    then s.(lastSuccessAt := Some(p.at), successes := status.successes + 1, failures := 0)
    else s.(lastFailureAt := Some(p.at), failures := status.failures + 1, successes := 0)
  }

  function Enqueue(db: Tables, p: Probe, job: NotifyJob): Tables {
    if p.Notifies() then db.(outbox := db.outbox + [job]) else db
  }

  function NewIncident(monitor: Id, p: Probe): Incident {
    Incident(p.incidentId, monitor, p.at, None, p.incidentEventId, None, p.reason)
  }

  /** What the statement of the current stage does when it does not fail. */
  function Effect(db: Tables, c: Check): Tables {
    var p := c.probe;
    match c.stage
    case Recording(s) =>
      db.(checks := db.checks + [CheckRow(p.checkId, c.monitor, p.success, TransitionOf(s, p).to, p.at)])
    case Changing(s) =>
      db.(events := db.events + [Event(p.changeId, StateChanged(s.state, TransitionOf(s, p).to), c.monitor, p.at)])
    case Announcing(s) => db.(events := db.events + [Event(p.incidentEventId, IncidentOpened, c.monitor, p.at)])
    case Opening(s) =>
      Enqueue(db.(incidents := db.incidents + [NewIncident(c.monitor, p)]), p,
              NotifyJob(MonitorDown, c.monitor, p.incidentId, p.incidentEventId))
    case Concluding(s, found) => db.(events := db.events + [Event(p.incidentEventId, IncidentResolved, c.monitor, p.at)])
    case Resolving(s, found) =>
      if Resolvable(db.incidents, found)
      then Enqueue(db.(incidents := ResolveRows(db.incidents, found, p.at, p.incidentEventId)), p,
                   NotifyJob(MonitorRecovered, c.monitor, found, p.incidentEventId))
      else db
    case Saving(s) => db.(states := db.states[c.monitor := NextStatus(s, p)])
    case _ => db
  }

  function CallOf(stage: Stage): Call
    requires !stage.Finished?
  {
    match stage
    case Getting => GetState
    case Recording(_) => InsertCheck
    case Changing(_) => InsertChange
    case Announcing(_) => InsertOpened
    case Opening(_) => OpenIncident
    case Finding(_) => FindOpenIncident
    case Concluding(_, _) => InsertResolved
    case Resolving(_, _) => ResolveIncident
    case Saving(_) => UpsertState
  }

  /** The stage after a call that did not fail. */
  function Following(db: Tables, c: Check): Stage
    requires !c.stage.Finished?
  {
    match c.stage
    case Getting => if c.monitor in db.states then Recording(db.states[c.monitor]) else Finished(false)
    case Recording(s) => if TransitionOf(s, c.probe).emitStateChange then Changing(s) else AfterChange(s, c.probe)
    case Changing(s) => AfterChange(s, c.probe)
    case Announcing(s) => Opening(s)
    case Opening(s) => Saving(s)
    case Finding(s) =>
      var r := FindOpen(db.incidents, c.monitor);
      if r.Some? then Concluding(s, db.incidents[r.value].id) else Finished(false)
    case Concluding(s, found) => Resolving(s, found)
    case Resolving(s, found) => if Resolvable(db.incidents, found) then Saving(s) else Finished(false)
    case Saving(_) => Finished(true)
  }

  predicate Fails(c: Check)
    requires !c.stage.Finished?
  {
    CallOf(c.stage) in c.probe.fails
  }

  /** One store call. */
  function Advance(db: Tables, c: Check): (Tables, Check)
    requires !c.stage.Finished?
  {
    if Fails(c) then (db, c.(stage := Finished(false)))
    else (Effect(db, c), c.(stage := Following(db, c)))
  }

  function CallsLeft(stage: Stage): nat {
    match stage
    case Getting => 8
    case Recording(_) => 7
    case Changing(_) => 6
    case Announcing(_) => 5
    case Finding(_) => 5
    case Opening(_) => 4
    case Concluding(_, _) => 4
    case Resolving(_, _) => 3
    case Saving(_) => 1
    case Finished(_) => 0
  }

  /** One store call, if the run has any left. */
  function Then(x: (Tables, Check)): (Tables, Check) {
    if x.1.stage.Finished? then x else Advance(x.0, x.1)
  }

  /** The tables when a run that has got as far as `x.1` makes all its remaining calls undisturbed. */
  function Complete(x: (Tables, Check)): Tables
    decreases CallsLeft(x.1.stage)
  {
    if x.1.stage.Finished? then x.0 else Complete(Advance(x.0, x.1))
  }

  /** A whole check with nothing in between. */
  function RunCheck(db: Tables, monitor: Id, probe: Probe): Tables { Complete((db, Begin(monitor, probe))) }
}
