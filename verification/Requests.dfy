/** Lifecycle operations as the store calls they make, one by one, so that requests and checks can interleave.
    Each call may fail; a failed call ends the request there and leaves its rows untouched. */
module Requests {
  import opened Common
  import opened Monitors
  import opened Store
  import opened World
  import opened Projection
  import Service = ServiceSpec

  /** The next call of a request, with the monitor it works on and, for the state row, the value to write. */
  datatype Phase =
    | Fetching
    | Storing(monitor: Monitor)
    | Reading(monitor: Monitor)
    | Writing(monitor: Monitor, status: Status)
    | Logging(monitor: Monitor)
    | Returned(outcome: Service.Outcome)

  datatype Request = Request(op: Op, phase: Phase)

  function Enter(op: Op): Request {
    Request(op, if op.CreateOp? then Storing(op.input.(id := op.id, deleted := false)) else Fetching)
  }

  function FailsOf(op: Op): set<Service.ServiceCall> { if op.CheckOp? then {} else op.ctx.fails }

  /** After the monitor has been read. */
  function Fetched(op: Op, row: Monitor): Phase {
    match op
    case UpdateOp(input, valid, _) =>
      var m := input.(enabled := row.enabled, deleted := false);
      if Service.Valid(m, valid) then Storing(m) else Returned(Service.Failed)
    case DeleteOp(_, _) => Storing(row)
    case ToggleOp(_, enabled, _) =>
      if row.enabled == enabled then Returned(Service.Unchanged) else Storing(row.(enabled := enabled))
    case _ => Returned(Service.Failed)
  }

  /** The write of the monitor row. */
  function Stores(db: Tables, op: Op, m: Monitor): (Tables, Phase) {
    match op
    case CreateOp(input, _, valid, ctx) =>
      if !Service.Valid(input, valid) || Service.InsertMonitor in ctx.fails || m.id in db.monitors
      then (db, Returned(Service.Failed))
      else (db.(monitors := db.monitors[m.id := Stored(m)]), Writing(m, Service.InitialStatus(m.enabled, ctx.at)))
    case DeleteOp(id, ctx) =>
      if Service.DeleteMonitor in ctx.fails || !Live(db.monitors, id) then (db, Returned(Service.Failed))
      else (db.(monitors := db.monitors[id := db.monitors[id].(deleted := true)]), Logging(m))
    case _ =>
      if Service.UpdateMonitor in FailsOf(op) || !Live(db.monitors, m.id) then (db, Returned(Service.Failed))
      else (db.(monitors := db.monitors[m.id := Stored(m).(deleted := false)]),
            if op.ToggleOp? then Reading(m) else Logging(m))
  }

  function Toggled(op: Op, status: Status): Status
    requires op.ToggleOp?
  {
    status.(state := Service.InitialState(op.enabled), updatedAt := op.ctx.at)
  }

  function KindOf(op: Op): EventKind {
    match op
    case CreateOp(_, _, _, _) => Created
    case UpdateOp(_, _, _) => Updated
    case ToggleOp(_, enabled, _) => if enabled then Enabled else Disabled
    case _ => Deleted
  }

  /** One store call. */
  function Step(db: Tables, r: Request): (Tables, Request)
    requires !r.phase.Returned? && !r.op.CheckOp?
  {
    var op := r.op;
    match r.phase
    case Fetching =>
      (db, Request(op, if Service.GetMonitor in FailsOf(op) || !Live(db.monitors, Target(op)) then Returned(Service.Failed)
                       else Fetched(op, db.monitors[Target(op)])))
    case Storing(m) => var s := Stores(db, op, m); (s.0, Request(op, s.1))
    case Reading(m) =>
      (db, Request(op, if !op.ToggleOp? || Service.ReadState in FailsOf(op) || m.id !in db.states then Returned(Service.Failed)
                       else Writing(m, Toggled(op, db.states[m.id]))))
    case Writing(m, status) =>
      if Service.WriteState in FailsOf(op) then (db, Request(op, Returned(Service.Failed)))
      else (db.(states := db.states[m.id := status]), Request(op, Logging(m)))
    case Logging(m) => var e := Service.Record(db, KindOf(op), m, op.ctx); (e.0, Request(op, Returned(e.1)))
  }

  function StepsLeft(phase: Phase): nat {
    match phase
    case Fetching => 5
    case Storing(_) => 4
    case Reading(_) => 3
    case Writing(_, _) => 2
    case Logging(_) => 1
    case Returned(_) => 0
  }

  /** The tables and the outcome when a request makes its remaining calls undisturbed. */
  function Finish(x: (Tables, Request)): (Tables, Service.Outcome)
    decreases StepsLeft(x.1.phase)
  {
    if x.1.phase.Returned? then (x.0, x.1.phase.outcome)
    else if x.1.op.CheckOp? then (x.0, Service.Failed)
    else Finish(Step(x.0, x.1))
  }

  /** A request that runs alone does what the operation is specified to do. */
  lemma RequestAlone(db: Tables, op: Op)
    requires !op.CheckOp? && OwnIds(db.monitors)
    ensures Finish((db, Enter(op))) == Lifecycle(db, op)
  {
    match op
    case CreateOp(_, _, _, _) => CreateAlone(db, op);
    case ToggleOp(_, _, _) => ToggleAlone(db, op);
    case _ => EditAlone(db, op);
  }

  lemma CreateAlone(db: Tables, op: Op)
    requires op.CreateOp?
    ensures Finish((db, Enter(op))) == Lifecycle(db, op)
  {
    var x1 := Step(db, Enter(op));
    assert Finish((db, Enter(op))) == Finish(x1);
    if x1.1.phase.Returned? { return; }
    var x2 := Step(x1.0, x1.1);
    assert Finish(x1) == Finish(x2);
    if x2.1.phase.Returned? { return; }
    assert Finish(x2) == Finish(Step(x2.0, x2.1));
  }

  lemma EditAlone(db: Tables, op: Op)
    requires (op.UpdateOp? || op.DeleteOp?) && OwnIds(db.monitors)
    ensures Finish((db, Enter(op))) == Lifecycle(db, op)
  {
    var x1 := Step(db, Enter(op));
    assert Finish((db, Enter(op))) == Finish(x1);
    if x1.1.phase.Returned? { return; }
    var x2 := Step(x1.0, x1.1);
    assert Finish(x1) == Finish(x2);
    if x2.1.phase.Returned? { return; }
    assert Finish(x2) == Finish(Step(x2.0, x2.1));
  }

  lemma ToggleAlone(db: Tables, op: Op)
    requires op.ToggleOp? && OwnIds(db.monitors)
    ensures Finish((db, Enter(op))) == Lifecycle(db, op)
  {
    var x1 := Step(db, Enter(op));
    assert Finish((db, Enter(op))) == Finish(x1);
    if x1.1.phase.Returned? { return; }
    var x2 := Step(x1.0, x1.1);
    assert Finish(x1) == Finish(x2);
    if x2.1.phase.Returned? { return; }
    StateAlone(x2.0, x2.1);
  }

  /** The part of a toggle from the read of the state row on. */
  lemma {:induction false} StateAlone(db: Tables, r: Request)
    requires r.op.ToggleOp? && r.phase.Reading?
    ensures var op, m := r.op, r.phase.monitor;
      Finish((db, r)) ==
        if Service.ReadState in op.ctx.fails || m.id !in db.states || Service.WriteState in op.ctx.fails then (db, Service.Failed)
        else Service.Record(db.(states := db.states[m.id := Toggled(op, db.states[m.id])]), KindOf(op), m, op.ctx)
  {
    var x3 := Step(db, r);
    assert Finish((db, r)) == Finish(x3);
    if x3.1.phase.Returned? { return; }
    var x4 := Step(x3.0, x3.1);
    assert Finish(x3) == Finish(x4);
    if x4.1.phase.Returned? { return; }
    assert Finish(x4) == Finish(Step(x4.0, x4.1));
  }

  // ---- whose rows a request touches ----

  /** A request works on the monitor it is about. */
  predicate Formed(r: Request) {
    && !r.op.CheckOp?
    && (r.phase.Storing? || r.phase.Reading? || r.phase.Writing? || r.phase.Logging? ==> r.phase.monitor.id == Target(r.op))
  }

  lemma StaysFormed(db: Tables, r: Request)
    requires OwnIds(db.monitors) && Formed(r) && !r.phase.Returned?
    ensures Formed(Step(db, r).1) && Step(db, r).1.op == r.op
  {}

  /** A request's call acts on its monitor's rows as it would if there were no others, and on no other rows. */
  lemma StepProjects(db: Tables, r: Request, id: Id)
    requires Keyed(db) && Formed(r) && !r.phase.Returned?
    ensures Target(r.op) == id ==> (Project(Step(db, r).0, id), Step(db, r).1) == Step(Project(db, id), r)
    ensures Target(r.op) != id ==> Project(Step(db, r).0, id) == Project(db, id)
  {
    match r.phase
    case Storing(m) => StoresProjects(db, r.op, m, id);
    case Writing(m, status) => StateProjects(db, m.id, status, id);
    case Logging(m) => RecordProjects(db, KindOf(r.op), m, r.op.ctx, id);
    case _ =>
  }

  lemma StoresProjects(db: Tables, op: Op, m: Monitor, id: Id)
    requires !op.CheckOp? && m.id == Target(op)
    ensures m.id == id ==> (Project(Stores(db, op, m).0, id), Stores(db, op, m).1) == Stores(Project(db, id), op, m)
    ensures m.id != id ==> Project(Stores(db, op, m).0, id) == Project(db, id)
  {
    match op
    case DeleteOp(_, _) => if Live(db.monitors, m.id) { MonitorProjects(db, m.id, db.monitors[m.id].(deleted := true), id); }
    case CreateOp(_, _, _, _) => MonitorProjects(db, m.id, Stored(m), id);
    case _ => MonitorProjects(db, m.id, Stored(m).(deleted := false), id);
  }
}
