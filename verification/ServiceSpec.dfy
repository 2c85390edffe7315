/** What the lifecycle operations of the monitor service do to the tables, fault by fault. */
module ServiceSpec {
  import opened Common
  import opened Monitors
  import opened Store

  datatype ServiceCall =
    | GetMonitor | InsertMonitor | UpdateMonitor | DeleteMonitor | ReadState | WriteState | RecordEvent

  datatype Change = Change(kind: EventKind, monitor: Monitor)

  /** `Notified` is success with a change reported to the observer, `Unchanged` success without one. */
  datatype Outcome = Failed | Unchanged | Notified(change: Change)

  /** When an operation happens, the id its event gets, and which of its store calls fail. */
  datatype Context = Context(at: Stamp, eventId: Id, fails: set<ServiceCall>)

  predicate Valid(m: Monitor, restValid: bool) { m.interval > 0 && m.timeout > 0 && restValid }

  function InitialState(enabled: bool): MonitorState { if enabled then Unknown else Paused }

  function InitialStatus(enabled: bool, at: Stamp): Status {
    Status(InitialState(enabled), None, None, None, None, 0, 0, at)
  }

  function Record(db: Tables, kind: EventKind, m: Monitor, ctx: Context): (Tables, Outcome) {
    if RecordEvent in ctx.fails then (db, Failed)
    else (db.(events := db.events + [Event(ctx.eventId, kind, m.id, ctx.at)]), Notified(Change(kind, m)))
  }

  /** `id` is the fresh id; `restValid` the verdict of the validators of the other fields. */
  function Create(db: Tables, input: Monitor, id: Id, restValid: bool, ctx: Context): (Tables, Outcome) {
    var m := input.(id := id, deleted := false);
    if !Valid(input, restValid) || InsertMonitor in ctx.fails || id in db.monitors then (db, Failed) else
    var db1 := db.(monitors := db.monitors[id := Stored(m)]);
    if WriteState in ctx.fails then (db1, Failed) else
    Record(db1.(states := db1.states[id := InitialStatus(m.enabled, ctx.at)]), Created, m, ctx)
  }

  function Update(db: Tables, input: Monitor, restValid: bool, ctx: Context): (Tables, Outcome) {
    if GetMonitor in ctx.fails || !Live(db.monitors, input.id) then (db, Failed) else
    var m := input.(enabled := db.monitors[input.id].enabled, deleted := false);
    if !Valid(m, restValid) || UpdateMonitor in ctx.fails then (db, Failed) else
    Record(db.(monitors := db.monitors[m.id := Stored(m)]), Updated, m, ctx)
  }

  function Delete(db: Tables, id: Id, ctx: Context): (Tables, Outcome) {
    if GetMonitor in ctx.fails || !Live(db.monitors, id) || DeleteMonitor in ctx.fails then (db, Failed) else
    Record(db.(monitors := db.monitors[id := db.monitors[id].(deleted := true)]), Deleted, db.monitors[id], ctx)
  }

  function SetEnabled(db: Tables, id: Id, enabled: bool, ctx: Context): (Tables, Outcome) {
    if GetMonitor in ctx.fails || !Live(db.monitors, id) then (db, Failed) else
    if db.monitors[id].enabled == enabled then (db, Unchanged) else
    var m := db.monitors[id].(enabled := enabled);
    if UpdateMonitor in ctx.fails then (db, Failed) else
    var db1 := db.(monitors := db.monitors[id := Stored(m)]);
    if ReadState in ctx.fails || id !in db.states || WriteState in ctx.fails then (db1, Failed) else
    var st := db.states[id].(state := InitialState(enabled), updatedAt := ctx.at);
    Record(db1.(states := db1.states[id := st]), if enabled then Enabled else Disabled, m, ctx)
  }
}
