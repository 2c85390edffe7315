/** The audit log replays to the current state, the counters measure the check log, and what a toggle
    between a check's read and write of the state row does. */
module Audit {
  import opened Common
  import opened Monitors
  import opened Store
  import opened CheckRun
  import opened World
  import opened Projection
  import opened Commute
  import opened Interleaving
  import opened Serial
  import opened Ledger
  import opened Notifications
  import Service = ServiceSpec

  // ---- what the log says ----

  /** One audited step of the state; None when the event does not fit the state it meets. */
  function Follow(state: Option<MonitorState>, kind: EventKind): Option<MonitorState> {
    if state == None then None else
    match kind
    case StateChanged(from, to) => if state.value == from then Some(to) else None
    case Enabled => if state.value == Paused then Some(Unknown) else None
    case Disabled => if state.value != Paused then Some(Paused) else None
    case _ => state
  }

  function Replay(events: seq<Event>, initial: MonitorState): Option<MonitorState> {
    if events == [] then Some(initial)
    else Follow(Replay(events[..|events| - 1], initial), events[|events| - 1].kind)
  }

  /** The length of the maximal run of outcome `success` at the end of the log. */
  function Trailing(checks: seq<CheckRow>, success: bool): nat {
    if checks == [] || checks[|checks| - 1].success != success then 0
    else 1 + Trailing(checks[..|checks| - 1], success)
  }

  /** The time of the last check with outcome `success`. */
  function LastAt(checks: seq<CheckRow>, success: bool): Option<Stamp> {
    if checks == [] then None
    else if checks[|checks| - 1].success == success then Some(checks[|checks| - 1].at)
    else LastAt(checks[..|checks| - 1], success)
  }

  /** The status row sums up the check log. */
  predicate Summarises(s: Status, checks: seq<CheckRow>) {
    && s.successes == Trailing(checks, true) && s.failures == Trailing(checks, false)
    && s.lastSuccessAt == LastAt(checks, true) && s.lastFailureAt == LastAt(checks, false)
    && s.lastCheckId == (if checks == [] then None else Some(checks[|checks| - 1].id))
    && s.lastCheckedAt == (if checks == [] then None else Some(checks[|checks| - 1].at))
  }

  lemma ReplayAppend(events: seq<Event>, e: Event, initial: MonitorState)
    ensures Replay(events + [e], initial) == Follow(Replay(events, initial), e.kind)
  {
    assert (events + [e])[..|events|] == events;
  }

  /** The events of updates and deletes do not matter, nor do their places. */
  lemma {:induction false} ReplayUnedited(events: seq<Event>, initial: MonitorState)
    ensures Replay(events, initial) == Replay(Filter(events, Unedited()), initial)
    decreases |events|
  {
    if events == [] {
    } else {
      var before, last := events[..|events| - 1], events[|events| - 1];
      ReplayUnedited(before, initial);
      assert events == before + [last];
      FilterAppend(before, last, Unedited());
      ReplayAppend(Filter(before, Unedited()), last, initial);
    }
  }

  lemma ReplaysAlike(a: seq<Event>, b: seq<Event>, initial: MonitorState)
    requires LogsAlike(a, b, Log)
    ensures Replay(a, initial) == Replay(b, initial)
  {
    ReplayUnedited(a, initial);
    ReplayUnedited(b, initial);
  }

  lemma ReplayTwo(events: seq<Event>, e: Event, f: Event, initial: MonitorState)
    ensures Replay(events + [e, f], initial) == Follow(Follow(Replay(events, initial), e.kind), f.kind)
  {
    var first := events + [e];
    assert events + [e, f] == first + [f];
    ReplayAppend(first, f, initial);
    ReplayAppend(events, e, initial);
  }

  lemma TrailingAppend(checks: seq<CheckRow>, r: CheckRow, success: bool)
    ensures Trailing(checks + [r], success) == if r.success == success then Trailing(checks, success) + 1 else 0
    ensures LastAt(checks + [r], success) == if r.success == success then Some(r.at) else LastAt(checks, success)
  {
    assert (checks + [r])[..|checks|] == checks;
  }

  // ---- the books of one monitor ----

  /** State row, audit log, check log and incidents of the only monitor agree. */
  ghost predicate Balanced(db: Tables, id: Id, initial: MonitorState) {
    && Sound(db) && PausedIffDisabled(db) && db.monitors.Keys == {id} && OpenCount(db, id) >= IsDown(db, id)
    && id in db.states
    && Replay(db.events, initial) == Some(db.states[id].state)
    && Summarises(db.states[id], db.checks)
  }

  /** The events of a check that meets no fault and finds what it has to resolve. */
  function EventsOfCheck(s: Status, id: Id, p: Probe): seq<Event> {
    var t := TransitionOf(s, p);
    if !t.emitStateChange then [] else
    var change := Event(p.changeId, StateChanged(t.from, t.to), id, p.at);
    if t.openIncident then [change, Event(p.incidentEventId, IncidentOpened, id, p.at)]
    else if t.resolveIncident then [change, Event(p.incidentEventId, IncidentResolved, id, p.at)]
    else [change]
  }

  lemma EffectAppends(db: Tables, id: Id, p: Probe)
    requires id in db.states && p.fails == {}
    requires TransitionOf(db.states[id], p).resolveIncident ==> FindOpen(db.incidents, id).Some?
    ensures var t, s := CheckEffect(db, id, p), db.states[id];
      && t.events == db.events + EventsOfCheck(s, id, p)
      && t.checks == db.checks + [CheckRow(p.checkId, id, p.success, TransitionOf(s, p).to, p.at)]
  {
    var s := db.states[id];
    var t := TransitionOf(s, p);
    assert db.events + [] == db.events;
    if !t.emitStateChange { return; }
    var change := Event(p.changeId, StateChanged(t.from, t.to), id, p.at);
    var kind := if t.openIncident then IncidentOpened else IncidentResolved;
    var end := Event(p.incidentEventId, kind, id, p.at);
    assert (db.events + [change]) + [end] == db.events + [change, end];
  }

  lemma CheckAppends(db: Tables, id: Id, p: Probe)
    requires id in db.states && p.fails == {}
    requires TransitionOf(db.states[id], p).resolveIncident ==> FindOpen(db.incidents, id).Some?
    ensures var t, s := RunCheck(db, id, p), db.states[id];
      && t.events == db.events + EventsOfCheck(s, id, p)
      && t.checks == db.checks + [CheckRow(p.checkId, id, p.success, NextStatus(s, p).state, p.at)]
  {
    CheckInClosedForm(db, id, p);
    EffectAppends(db, id, p);
  }

  lemma ReplayPair(events: seq<Event>, e: Event, f: Event, initial: MonitorState, to: MonitorState)
    requires Follow(Replay(events, initial), e.kind) == Some(to) && (f.kind.IncidentOpened? || f.kind.IncidentResolved?)
    ensures Replay(events + [e, f], initial) == Some(to)
  {
    ReplayTwo(events, e, f, initial);
  }

  lemma ReplayCheck(events: seq<Event>, s: Status, id: Id, p: Probe, initial: MonitorState)
    requires Replay(events, initial) == Some(s.state)
    ensures Replay(events + EventsOfCheck(s, id, p), initial) == Some(TransitionOf(s, p).to)
  {
    var t := TransitionOf(s, p);
    if !t.emitStateChange {
      assert EventsOfCheck(s, id, p) == [] && events + [] == events;
      return;
    }
    var change := Event(p.changeId, StateChanged(t.from, t.to), id, p.at);
    assert Follow(Some(s.state), change.kind) == Some(t.to);
    if t.openIncident {
      ReplayPair(events, change, Event(p.incidentEventId, IncidentOpened, id, p.at), initial, t.to);
    } else if t.resolveIncident {
      ReplayPair(events, change, Event(p.incidentEventId, IncidentResolved, id, p.at), initial, t.to);
    } else {
      ReplayAppend(events, change, initial);
    }
  }

  lemma CheckReplays(db: Tables, id: Id, p: Probe, initial: MonitorState)
    requires id in db.states && p.fails == {} && Replay(db.events, initial) == Some(db.states[id].state)
    requires TransitionOf(db.states[id], p).resolveIncident ==> FindOpen(db.incidents, id).Some?
    ensures Replay(RunCheck(db, id, p).events, initial) == Some(NextStatus(db.states[id], p).state)
  {
    CheckAppends(db, id, p);
    ReplayCheck(db.events, db.states[id], id, p, initial);
  }

  lemma CheckSums(db: Tables, id: Id, p: Probe)
    requires id in db.states && p.fails == {}
    requires TransitionOf(db.states[id], p).resolveIncident ==> FindOpen(db.incidents, id).Some?
    ensures var t, s := RunCheck(db, id, p), db.states[id];
      Summarises(s, db.checks) ==> Summarises(NextStatus(s, p), t.checks)
  {
    CheckAppends(db, id, p);
    var row := CheckRow(p.checkId, id, p.success, NextStatus(db.states[id], p).state, p.at);
    TrailingAppend(db.checks, row, true);
    TrailingAppend(db.checks, row, false);
  }

  /** A check that may resolve finds something to resolve. */
  lemma BalancedFinds(db: Tables, id: Id, p: Probe, initial: MonitorState)
    requires Balanced(db, id, initial)
    ensures TransitionOf(db.states[id], p).resolveIncident ==> FindOpen(db.incidents, id).Some?
  {
    FindOpenCount(db, id);
  }

  lemma CheckSaves(db: Tables, id: Id, p: Probe)
    requires id in db.states && p.fails == {}
    requires TransitionOf(db.states[id], p).resolveIncident ==> FindOpen(db.incidents, id).Some?
    ensures var t := RunCheck(db, id, p);
      t.monitors == db.monitors && t.states == db.states[id := NextStatus(db.states[id], p)]
  {
    CheckSummary(db, id, p);
  }

  lemma CheckBalances(db: Tables, id: Id, p: Probe, initial: MonitorState)
    requires Balanced(db, id, initial) && Fresh(db, CheckOp(id, p)) && p.fails == {}
    ensures Balanced(RunCheck(db, id, p), id, initial)
  {
    BalancedFinds(db, id, p, initial);
    CheckReplays(db, id, p, initial);
    CheckSums(db, id, p);
    CheckKeeps(db, id, p, id);
    PausedStep(db, CheckOp(id, p));
    CheckSaves(db, id, p);
  }

  /** The rows written by an update or a delete that meets no fault. */
  lemma EditRows(db: Tables, op: Op)
    requires Sound(db) && (op.UpdateOp? || op.DeleteOp?) && FaultFree(op) && Live(db.monitors, Target(op))
    ensures var t := Apply(db, op);
      && t.checks == db.checks && t.states == db.states && t.incidents == db.incidents
      && t.monitors.Keys == db.monitors.Keys
      && (t.events == db.events
          || t.events == db.events + [Event(op.ctx.eventId, if op.UpdateOp? then Updated else Deleted, Target(op), op.ctx.at)])
  {}

  /** The rows written by a toggle that meets no fault and has an effect. */
  lemma ToggleRows(db: Tables, op: Op)
    requires Sound(db) && op.ToggleOp? && FaultFree(op) && op.id in db.states
    requires Live(db.monitors, op.id) && db.monitors[op.id].enabled != op.enabled
    ensures var t := Apply(db, op);
      && t.checks == db.checks && t.incidents == db.incidents && t.monitors.Keys == db.monitors.Keys
      && t.events == db.events + [Event(op.ctx.eventId, if op.enabled then Enabled else Disabled, op.id, op.ctx.at)]
      && t.states == db.states[op.id := db.states[op.id].(state := Service.InitialState(op.enabled), updatedAt := op.ctx.at)]
  {}

  lemma ReplayToggle(events: seq<Event>, e: Event, initial: MonitorState, current: MonitorState, enabled: bool)
    requires Replay(events, initial) == Some(current) && (current == Paused <==> enabled)
    requires e.kind == if enabled then Enabled else Disabled
    ensures Replay(events + [e], initial) == Some(Service.InitialState(enabled))
  {
    ReplayAppend(events, e, initial);
  }

  lemma ReplayEdit(events: seq<Event>, e: Event, initial: MonitorState)
    requires e.kind == Updated || e.kind == Deleted
    ensures Replay(events + [e], initial) == Replay(events, initial)
  {
    ReplayAppend(events, e, initial);
  }

  lemma EditBalances(db: Tables, op: Op, id: Id, initial: MonitorState)
    requires Balanced(db, id, initial) && (op.UpdateOp? || op.DeleteOp?) && Target(op) == id && FaultFree(op)
    requires Live(db.monitors, id)
    ensures Balanced(Apply(db, op), id, initial)
  {
    EditRows(db, op);
    ReplayEdit(db.events, Event(op.ctx.eventId, if op.UpdateOp? then Updated else Deleted, id, op.ctx.at), initial);
    LifecycleKeeps(db, op, id);
    PausedStep(db, op);
  }

  lemma ToggleBalances(db: Tables, op: Op, id: Id, initial: MonitorState)
    requires Balanced(db, id, initial) && op.ToggleOp? && op.id == id && FaultFree(op)
    requires Live(db.monitors, id) && db.monitors[id].enabled != op.enabled
    ensures Balanced(Apply(db, op), id, initial)
  {
    ToggleRows(db, op);
    ReplayToggle(db.events, Event(op.ctx.eventId, if op.enabled then Enabled else Disabled, id, op.ctx.at), initial,
                 db.states[id].state, op.enabled);
    LifecycleKeeps(db, op, id);
    PausedStep(db, op);
  }

  lemma LifecycleBalances(db: Tables, op: Op, id: Id, initial: MonitorState)
    requires Balanced(db, id, initial) && !op.CheckOp? && Target(op) == id && FaultFree(op)
    ensures Balanced(Apply(db, op), id, initial)
  {
    if (op.UpdateOp? || op.DeleteOp?) && Live(db.monitors, id) {
      EditBalances(db, op, id, initial);
    } else if op.ToggleOp? && Live(db.monitors, id) && db.monitors[id].enabled != op.enabled {
      ToggleBalances(db, op, id, initial);
    } else {
      assert Apply(db, op) == db;
    }
  }

  lemma {:induction false} RunBalances(db: Tables, ops: seq<Op>, id: Id, initial: MonitorState)
    requires Balanced(db, id, initial) && AllOn(ops, id) && FreshRun(db, ops) && AllFaultFree(ops)
    ensures Balanced(Run(db, ops), id, initial)
    decreases |ops|
  {
    if ops == [] { return; }
    assert ops[0] in ops;
    if ops[0].CheckOp? {
      CheckBalances(db, id, ops[0].probe, initial);
    } else {
      LifecycleBalances(db, ops[0], id, initial);
    }
    RunBalances(Apply(db, ops[0]), ops[1..], id, initial);
  }

  /** The enabled flag the monitor is created with: that of the first creation with valid input. */
  function BornEnabled(ops: seq<Op>): bool {
    if ops == [] then true
    else if ops[0].CreateOp? && Service.Valid(ops[0].input, ops[0].restValid) then ops[0].input.enabled
    else BornEnabled(ops[1..])
  }

  /** The rows that a creation without faults writes. */
  lemma CreationRows(op: Op, id: Id)
    requires op.CreateOp? && op.id == id && FaultFree(op) && Service.Valid(op.input, op.restValid)
    ensures Apply(EMPTY, op) == Tables(map[id := Stored(op.input.(id := id, deleted := false))],
                                       map[id := Service.InitialStatus(op.input.enabled, op.ctx.at)],
                                       [], [Event(op.ctx.eventId, Created, id, op.ctx.at)], [], [])
  {
    var e := Event(op.ctx.eventId, Created, id, op.ctx.at);
    assert EMPTY.events + [e] == [e];
  }

  lemma CreationBalances(op: Op, id: Id)
    requires op.CreateOp? && op.id == id && FaultFree(op) && Service.Valid(op.input, op.restValid)
    ensures Balanced(Apply(EMPTY, op), id, Service.InitialState(op.input.enabled))
  {
    CreationRows(op, id);
    LifecycleKeeps(EMPTY, op, id);
    ReplayAppend([], Event(op.ctx.eventId, Created, id, op.ctx.at), Service.InitialState(op.input.enabled));
  }

  lemma Birth(op: Op, id: Id)
    requires Target(op) == id && FaultFree(op)
    ensures if op.CreateOp? && Service.Valid(op.input, op.restValid)
            then Balanced(Apply(EMPTY, op), id, Service.InitialState(op.input.enabled)) else Apply(EMPTY, op) == EMPTY
  {
    match op
    case CheckOp(_, p) => CheckInClosedForm(EMPTY, id, p);
    case CreateOp(input, _, valid, _) => if Service.Valid(input, valid) { CreationBalances(op, id); }
    case _ =>
  }

  lemma {:induction false} RunFromBirth(ops: seq<Op>, id: Id)
    requires AllOn(ops, id) && FreshRun(EMPTY, ops) && AllFaultFree(ops)
    ensures Run(EMPTY, ops) == EMPTY || Balanced(Run(EMPTY, ops), id, Service.InitialState(BornEnabled(ops)))
    decreases |ops|
  {
    if ops == [] { return; }
    assert ops[0] in ops;
    Birth(ops[0], id);
    if ops[0].CreateOp? && Service.Valid(ops[0].input, ops[0].restValid) {
      RunBalances(Apply(EMPTY, ops[0]), ops[1..], id, Service.InitialState(ops[0].input.enabled));
    } else {
      RunFromBirth(ops[1..], id);
    }
  }

  /** Without faults, in every interleaving in which requests of the monitor do not overlap and no toggle writes
      inside a check: the state is paused exactly while the monitor is disabled. If no check writes inside a toggle
      either, the status row sums up the check log: the counters are the lengths of the success and failure runs
      at its end, the last check, success and failure are those of the log. And if no check starts on an unlogged
      toggle, replaying the monitor's events from the state it was created in gives its current state, every
      event fitting the state it meets. */
  lemma AuditLogReplays(acts: seq<Act>, id: Id, l: Level)
    requires Schedule(START, acts) && Undisturbed(START, acts, id, l) && Quiescent(After(START, acts), id)
    requires AllFaultFree(OpsOf(START, acts, id))
    ensures var db, born := After(START, acts).db, BornEnabled(OpsOf(START, acts, id));
      id in db.states ==>
        && (db.states[id].state == Paused <==> id in db.monitors && !db.monitors[id].enabled)
        && (!l.Health? ==> Summarises(db.states[id], Filter(db.checks, ChecksOf(id))))
        && (l.Log? ==> Replay(Filter(db.events, EventsOf(id)), Service.InitialState(born)) == Some(db.states[id].state))
  {
    var db, ops := After(START, acts).db, OpsOf(START, acts, id);
    assert Project(EMPTY, id) == EMPTY;
    ChecksSerialise(EMPTY, acts, id, l);
    ReplayIsFresh(START, acts, id, l);
    OpsOfTarget(START, acts, id);
    RunFromBirth(ops, id);
    if l.Log? { ReplaysAlike(Filter(db.events, EventsOf(id)), Run(EMPTY, ops).events, Service.InitialState(BornEnabled(ops))); }
  }

  // ---- toggles ----

  /** The service's toggle agrees with the state machine exactly when an enable meets paused or unknown:
      always, that is, while paused means disabled. */
  lemma ToggleAgreesExactly(db: Tables, id: Id, enabled: bool, ctx: Service.Context)
    requires Live(db.monitors, id) && db.monitors[id].enabled != enabled && id in db.states && ctx.fails == {}
    ensures var t := Service.SetEnabled(db, id, enabled, ctx).0;
      && id in t.states
      && (t.states[id].state == NextState(db.states[id].state, if enabled then Enable else Disable).to
          <==> (enabled ==> db.states[id].state in {Paused, Unknown}))
  {}

  /** Whether a run that has got as far as `x.1` will write its state row. */
  function WillSave(x: (Tables, Check)): bool
    decreases CallsLeft(x.1.stage)
  {
    if x.1.stage.Finished? then x.1.stage.ok else WillSave(Advance(x.0, x.1))
  }

  /** A run that has read its status writes a row computed from that reading, or none. */
  lemma {:induction false} SavesWhatItRead(db: Tables, c: Check)
    requires HasRead(c.stage)
    ensures var t := Complete((db, c));
      && t.monitors == db.monitors
      && t.states == if WillSave((db, c)) then db.states[c.monitor := NextStatus(c.stage.status, c.probe)] else db.states
    decreases CallsLeft(c.stage)
  {
    var next := Advance(db, c);
    if HasRead(next.1.stage) { SavesWhatItRead(next.0, next.1); }
  }

  /** The calls from the incident's event on. */
  function IncidentCalls(status: Status, p: Probe): set<Call> {
    var t := TransitionOf(status, p);
    if t.openIncident then {InsertOpened, OpenIncident}
    else if t.resolveIncident then {FindOpenIncident, InsertResolved, ResolveIncident}
    else {}
  }

  /** The calls that a run has ahead of it if none of them fails, before the last one. */
  function CallsBetween(stage: Stage, p: Probe): set<Call> {
    match stage
    case Recording(s) =>
      {InsertCheck} + (if TransitionOf(s, p).emitStateChange then {InsertChange} else {}) + IncidentCalls(s, p)
    case Changing(s) => {InsertChange} + IncidentCalls(s, p)
    case Announcing(_) => {InsertOpened, OpenIncident}
    case Opening(_) => {OpenIncident}
    case Finding(_) => {FindOpenIncident, InsertResolved, ResolveIncident}
    case Concluding(_, _) => {InsertResolved, ResolveIncident}
    case Resolving(_, _) => {ResolveIncident}
    case _ => {}
  }

  /** What the run will resolve, or look up to resolve, is there. */
  predicate Finds(db: Tables, c: Check) {
    if c.stage.Concluding? || c.stage.Resolving? then Resolvable(db.incidents, c.stage.found)
    else FindOpenIncident in CallsBetween(c.stage, c.probe) ==> FindOpen(db.incidents, c.monitor).Some?
  }

  /** The guard for the write of the state row: no call ahead fails, and a recovery has something to resolve. */
  predicate WritesRow(db: Tables, c: Check) {
    CallsBetween(c.stage, c.probe) !! c.probe.fails && UpsertState !in c.probe.fails && Finds(db, c)
  }

  lemma FoundIsResolvable(incidents: seq<Incident>, id: Id)
    ensures var r := FindOpen(incidents, id); r.Some? ==> Resolvable(incidents, incidents[r.value].id)
  {}

  /** The calls ahead are the next one and those ahead of its successor. */
  lemma CallsShift(db: Tables, c: Check)
    requires HasRead(c.stage) && !c.stage.Saving? && HasRead(Following(db, c))
    ensures CallsBetween(c.stage, c.probe) == {CallOf(c.stage)} + CallsBetween(Following(db, c), c.probe)
  {}

  /** The calls on the way to the lookup leave the incidents alone. */
  lemma FindsShiftEarly(db: Tables, c: Check)
    requires (c.stage.Recording? || c.stage.Changing? || c.stage.Announcing?) && !Fails(c)
    ensures var next := Advance(db, c); HasRead(next.1.stage) && (Finds(db, c) <==> Finds(next.0, next.1))
  {
    assert Effect(db, c).incidents == db.incidents;
    assert !Following(db, c).Concluding? && !Following(db, c).Resolving?;
  }

  lemma FindsShift(db: Tables, c: Check)
    requires HasRead(c.stage) && !c.stage.Saving? && !Fails(c)
    ensures var next := Advance(db, c);
      if HasRead(next.1.stage) then Finds(db, c) <==> Finds(next.0, next.1) else !Finds(db, c)
  {
    if c.stage.Recording? || c.stage.Changing? || c.stage.Announcing? {
      FindsShiftEarly(db, c);
    } else if c.stage.Finding? {
      FoundIsResolvable(db.incidents, c.monitor);
    }
  }

  /** One call on the way keeps the verdict of the guard. */
  lemma GuardSteps(db: Tables, c: Check)
    requires HasRead(c.stage) && !c.stage.Saving?
    ensures var next := Advance(db, c);
      if HasRead(next.1.stage) then WritesRow(db, c) <==> WritesRow(next.0, next.1) else !WritesRow(db, c) && !next.1.stage.ok
  {
    if Fails(c) {
      assert CallOf(c.stage) in CallsBetween(c.stage, c.probe);
    } else {
      FindsShift(db, c);
      if HasRead(Following(db, c)) { CallsShift(db, c); }
    }
  }

  lemma {:induction false} WillSaveExactly(db: Tables, c: Check)
    requires HasRead(c.stage)
    ensures WillSave((db, c)) <==> WritesRow(db, c)
    decreases CallsLeft(c.stage)
  {
    var next := Advance(db, c);
    if c.stage.Saving? {
      assert WillSave((db, c)) == WillSave(next);
    } else {
      GuardSteps(db, c);
      assert WillSave((db, c)) == WillSave(next);
      if HasRead(next.1.stage) { WillSaveExactly(next.0, next.1); }
    }
  }

  /** A toggle that falls between the read and the write of a check: afterwards the state is paused exactly when
      the monitor is disabled if and only if the check does not get to write its row, which can be told before
      the toggle. */
  lemma ToggleInsideCheck(db: Tables, c: Check, enabled: bool, ctx: Service.Context)
    requires PausedIffDisabled(db) && c.monitor in db.states && HasRead(c.stage) && c.stage.status == db.states[c.monitor]
    requires Live(db.monitors, c.monitor) && db.monitors[c.monitor].id == c.monitor
    requires db.monitors[c.monitor].enabled != enabled && ctx.fails == {}
    ensures var id, toggled := c.monitor, Service.SetEnabled(db, c.monitor, enabled, ctx).0;
      var t := Complete((toggled, c));
      && id in t.states && id in t.monitors && t.monitors[id].enabled == enabled
      && ((t.states[id].state == Paused <==> !t.monitors[id].enabled) <==> !WritesRow(db, c))
  {
    var toggled := Service.SetEnabled(db, c.monitor, enabled, ctx).0;
    SavesWhatItRead(toggled, c);
    WillSaveExactly(toggled, c);
    assert toggled.incidents == db.incidents;
  }

  /** Such a run: a monitor is created, its first check succeeds, and a disable falls right after the check has
      read the state. The monitor ends up disabled and up. */
  lemma DisableIsOverwritten(m: Monitor, created: Service.Context, off: Service.Context, p: Probe)
    requires m.enabled && m.interval > 0 && m.timeout > 0 && created.fails == {} && off.fails == {}
    requires p.success && p.fails == {}
    ensures var db := Apply(EMPTY, CreateOp(m, m.id, true, created));
      var read := Advance(db, Begin(m.id, p));
      var t := Complete((Apply(read.0, ToggleOp(m.id, false, off)), read.1));
      && m.id in t.monitors && !t.monitors[m.id].enabled
      && m.id in t.states && t.states[m.id].state == Up
  {
    var op := CreateOp(m, m.id, true, created);
    CreationRows(op, m.id);
    var db := Apply(EMPTY, op);
    var read := Advance(db, Begin(m.id, p));
    var toggled := Apply(db, ToggleOp(m.id, false, off));
    assert read == (db, Check(m.id, p, Recording(Service.InitialStatus(true, created.at))));
    SavesWhatItRead(toggled, read.1);
    WillSaveExactly(toggled, read.1);
  }

  /** A paused state row outlives every check, whether or not the monitor is enabled. */
  lemma PausedOutlivesChecks(db: Tables, id: Id, p: Probe)
    requires id in db.states && db.states[id].state == Paused
    ensures var t := RunCheck(db, id, p); id in t.states && t.states[id].state == Paused
  {
    CheckSummary(db, id, p);
  }
}
