/** Where a request takes place among the checks of its monitor: at the write of the state row if it gets there,
    else at the write of the monitor row or where it returns. Before that it can be undone, after it only its
    event is outstanding. */
module Placement {
  import opened Monitors
  import opened Store
  import opened CheckRun
  import opened World
  import opened Projection
  import opened Commute
  import opened Requests
  import Service = ServiceSpec

  /** The request has not taken place yet. */
  predicate Unplaced(r: Request) { r.phase.Fetching? || r.phase.Storing? || r.phase.Reading? || r.phase.Writing? }

  /** The monitor row that a toggle has read. */
  function Before(m: Monitor): Monitor { m.(enabled := !m.enabled) }

  /** The tables without the monitor row that a request has written before taking place. */
  function Undo(db: Tables, r: Request): Tables {
    if !r.phase.Reading? && !r.phase.Writing? then db
    else if r.op.ToggleOp? then db.(monitors := db.monitors[r.phase.monitor.id := Before(r.phase.monitor)])
    else db.(monitors := db.monitors - {r.phase.monitor.id})
  }

  /** The tables as if the request had not begun, if it has not taken place, and had ended, if it has. */
  function Tidy(db: Tables, r: Request): Tables { if Unplaced(r) then Undo(db, r) else Finish((db, r)).0 }

  /** The monitor row that a toggle has written is still there. */
  ghost predicate Switched(db: Tables, op: Op, m: Monitor)
    requires op.ToggleOp?
  {
    && Service.GetMonitor !in op.ctx.fails && Service.UpdateMonitor !in op.ctx.fails
    && m.id == op.id && m.enabled == op.enabled && !m.deleted && m.id in db.monitors && db.monitors[m.id] == Stored(m)
  }

  ghost predicate Inserted(db: Tables, op: Op, m: Monitor, status: Status)
    requires op.CreateOp?
  {
    && Service.Valid(op.input, op.restValid) && Service.InsertMonitor !in op.ctx.fails
    && m == op.input.(id := op.id, deleted := false) && op.id in db.monitors && db.monitors[op.id] == Stored(m)
    && op.id !in db.states && status == Service.InitialStatus(m.enabled, op.ctx.at)
  }

  /** What the request has read is what is there, but at level `Health` for the counters of the state row. */
  ghost predicate Traced(db: Tables, r: Request, l: Level) {
    var op := r.op;
    match r.phase
    case Fetching => !op.CreateOp?
    case Storing(m) =>
      if op.CreateOp? then r == Enter(op)
      else Service.GetMonitor !in FailsOf(op) && Live(db.monitors, Target(op)) && Fetched(op, db.monitors[Target(op)]) == r.phase
    case Reading(m) => op.ToggleOp? && Switched(db, op, m)
    case Writing(m, status) =>
      if op.ToggleOp?
      then Switched(db, op, m) && Service.ReadState !in op.ctx.fails
           && m.id in db.states && SameStatus(status, Toggled(op, db.states[m.id]), l)
      else op.CreateOp? && Inserted(db, op, m, status)
    case _ => true
  }

  /** A step before the request takes place leaves what undoing it gives. */
  lemma StaysUndone(db: Tables, r: Request, l: Level)
    requires Keyed(db) && Formed(r) && Traced(db, r, l) && Unplaced(r) && Unplaced(Step(db, r).1)
    ensures Undo(Step(db, r).0, Step(db, r).1) == Undo(db, r)
    ensures Traced(Step(db, r).0, Step(db, r).1, l)
  {
    match r.phase
    case Storing(m) => StoringStaysUndone(db, r, l);
    case _ =>
  }

  lemma StoringStaysUndone(db: Tables, r: Request, l: Level)
    requires Keyed(db) && Formed(r) && Traced(db, r, l) && r.phase.Storing? && Unplaced(Step(db, r).1)
    ensures Undo(Step(db, r).0, Step(db, r).1) == db
    ensures Traced(Step(db, r).0, Step(db, r).1, l)
  {
    var m := r.phase.monitor;
    var next := Step(db, r);
    if r.op.ToggleOp? {
      assert Before(m) == db.monitors[m.id];
      assert db.monitors[m.id := Stored(m)][m.id := Before(m)] == db.monitors;
    } else {
      assert r.op.CreateOp? && m.id !in db.monitors;
      assert db.monitors[m.id := Stored(m)] - {m.id} == db.monitors;
    }
  }

  lemma AlikeSelf(db: Tables, l: Level)
    ensures Alike(db, db, l)
  {}

  lemma AlikeTrans(a: Tables, b: Tables, c: Tables, l: Level)
    requires Alike(a, b, l) && Alike(b, c, l)
    ensures Alike(a, c, l)
  {}

  /** The step at which the request takes place, with its event, comes to the whole operation. */
  lemma TakesPlace(db: Tables, r: Request, l: Level)
    requires Keyed(db) && Formed(r) && Traced(db, r, l) && Unplaced(r) && !Unplaced(Step(db, r).1)
    ensures Alike(Finish(Step(db, r)).0, Apply(Undo(db, r), r.op), l)
  {
    match r.phase
    case Writing(_, _) => if r.op.ToggleOp? { ToggleTakesPlace(db, r, l); } else { CreateTakesPlace(db, r, l); }
    case Reading(_) => ToggleMisses(db, r, l);
    case _ => EarlyTakesPlace(db, r, l);
  }

  /** Before any row is written the request is as good as not begun. */
  lemma EarlyTakesPlace(db: Tables, r: Request, l: Level)
    requires Keyed(db) && Formed(r) && Traced(db, r, l) && (r.phase.Fetching? || r.phase.Storing?)
    ensures Alike(Finish(Step(db, r)).0, Apply(db, r.op), l)
  {
    RequestAlone(db, r.op);
    assert Finish((db, r)) == Finish(Step(db, r));
    if r.phase.Storing? && !r.op.CreateOp? {
      var x := (db, Request(r.op, Fetching));
      assert Step(x.0, x.1) == (db, r) && Finish(x) == Finish((db, r));
    }
    AlikeSelf(Apply(db, r.op), l);
  }

  /** A toggle that does not get to read the state row has written the monitor row only. */
  lemma ToggleMisses(db: Tables, r: Request, l: Level)
    requires Traced(db, r, l) && r.phase.Reading? && Step(db, r).1.phase.Returned?
    requires Formed(r)
    ensures Alike(Finish(Step(db, r)).0, Apply(Undo(db, r), r.op), l)
  {
    var m := r.phase.monitor;
    assert db.monitors[m.id := Before(m)][m.id := Stored(m)] == db.monitors;
    ToggleWritten(Undo(db, r), r.op);
    assert Apply(Undo(db, r), r.op) == db;
    AlikeSelf(db, l);
  }

  lemma ToggleTakesPlace(db: Tables, r: Request, l: Level)
    requires Formed(r) && Traced(db, r, l) && r.phase.Writing? && r.op.ToggleOp?
    ensures Alike(Finish(Step(db, r)).0, Apply(Undo(db, r), r.op), l)
  {
    var op, m, status := r.op, r.phase.monitor, r.phase.status;
    var u := Undo(db, r);
    assert db.monitors[m.id := Before(m)][m.id := Stored(m)] == db.monitors;
    assert u.monitors[op.id].(enabled := op.enabled) == m;
    if Service.WriteState in op.ctx.fails {
      assert Apply(u, op) == db;
      AlikeSelf(db, l);
    } else {
      var a, b := db.(states := db.states[m.id := status]), db.(states := db.states[m.id := Toggled(op, db.states[m.id])]);
      var x := Step(db, r);
      assert x.0 == a && Finish(x) == Finish(Step(x.0, x.1));
      assert Finish(x).0 == Service.Record(a, KindOf(op), m, op.ctx).0;
      assert Apply(u, op) == Service.Record(b, KindOf(op), m, op.ctx).0;
      RecordAlike(a, b, KindOf(op), m, op.ctx, l);
    }
  }

  lemma CreateTakesPlace(db: Tables, r: Request, l: Level)
    requires Formed(r) && Traced(db, r, l) && r.phase.Writing? && r.op.CreateOp?
    ensures Alike(Finish(Step(db, r)).0, Apply(Undo(db, r), r.op), l)
  {
    var op, m := r.op, r.phase.monitor;
    var x := Step(db, r);
    assert (db.monitors - {m.id})[m.id := Stored(m)] == db.monitors;
    if !x.1.phase.Returned? { assert Finish(x) == Finish(Step(x.0, x.1)); }
    assert Apply(Undo(db, r), op) == Finish(x).0;
    AlikeSelf(Finish(x).0, l);
  }

  // ---- a check's call beside a request ----

  /** The event that is outstanding when the request has taken place. */
  function Outstanding(r: Request): seq<Event> {
    if r.phase.Logging? && !r.op.CheckOp? && Service.RecordEvent !in FailsOf(r.op)
    then [Event(r.op.ctx.eventId, KindOf(r.op), r.phase.monitor.id, r.op.ctx.at)] else []
  }

  lemma TidyForm(db: Tables, r: Request)
    requires Formed(r)
    ensures Tidy(db, r) == db.(monitors := Tidy(db, r).monitors, events := db.events + Outstanding(r))
    ensures !Unplaced(r) ==> Tidy(db, r).monitors == db.monitors
  {
    assert db.events + [] == db.events;
    if r.phase.Logging? { assert Finish((db, r)) == Finish(Step(db, r)); }
  }

  /** The request is a toggle that has read the state row and may still write it. */
  predicate ReadyToToggle(r: Request) { r.op.ToggleOp? && r.phase.Writing? }

  /** The request is a toggle whose event is outstanding. */
  predicate LateEvent(r: Request) { r.op.ToggleOp? && r.phase.Logging? }

  lemma TidyCall(db: Tables, c: Check, r: Request, l: Level)
    requires Formed(r) && !c.stage.Finished? && (l.Log? ==> !LateEvent(r) || c.stage.Getting?)
    ensures Advance(Tidy(db, r), c).1 == Advance(db, c).1
    ensures Alike(Advance(Tidy(db, r), c).0, Tidy(Advance(db, c).0, r), l)
  {
    var t, x := Tidy(db, r), Outstanding(r);
    var next := Advance(db, c).0;
    TidyForm(db, r);
    TidyForm(next, r);
    var n := CallFrame(t, db, c);
    assert Tidy(next, r).monitors == t.monitors;
    if c.stage.Getting? {
      assert n == [] by { assert next.events == db.events; AppendNothing(db.events, n); }
      assert Advance(t, c).0 == Tidy(next, r);
      AlikeSelf(Tidy(next, r), l);
    } else {
      assert forall e | e in x :: OfService()(e) && (l.Log? ==> !Unedited()(e));
      LogsSwap(db.events, x, n, l);
    }
  }

  lemma AppendNothing<T>(xs: seq<T>, n: seq<T>)
    requires xs == xs + n
    ensures n == []
  {
    assert |xs| == |xs| + |n|;
  }
}
