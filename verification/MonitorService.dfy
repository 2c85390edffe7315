/** The monitor service: it writes the repositories step by step and reports each change. */
module MonitorService {
  import opened Common
  import opened Monitors
  import opened Store
  import opened Repositories
  import opened ServiceSpec

  class MonitorService {
    const db: Database

    constructor (db: Database)
      ensures this.db == db
    {
      this.db := db;
    }

    method Finish(kind: EventKind, m: Monitor, ctx: Context, ghost outbox: seq<NotifyJob>) returns (r: Outcome)
      modifies db
      ensures (db.View(outbox), r) == Record(old(db.View(outbox)), kind, m, ctx)
    {
      var ok := db.InsertEvent(Event(ctx.eventId, kind, m.id, ctx.at), RecordEvent in ctx.fails);
      r := if ok then Notified(Change(kind, m)) else Failed;
    }

    method Create(input: Monitor, id: Id, restValid: bool, ctx: Context, ghost outbox: seq<NotifyJob>) returns (r: Outcome)
      modifies db
      ensures (db.View(outbox), r) == ServiceSpec.Create(old(db.View(outbox)), input, id, restValid, ctx)
    {
      if !Valid(input, restValid) { return Failed; }
      var m := input.(id := id, deleted := false);
      var ok := db.InsertMonitor(m, InsertMonitor in ctx.fails);
      if !ok { return Failed; }
      var state := Unknown;
      if !m.enabled { state := Paused; }
      ok := db.UpsertState(id, Status(state, None, None, None, None, 0, 0, ctx.at), WriteState in ctx.fails);
      if !ok { return Failed; }
      r := Finish(Created, m, ctx, outbox);
    }

    method Update(input: Monitor, restValid: bool, ctx: Context, ghost outbox: seq<NotifyJob>) returns (r: Outcome)
      modifies db
      ensures (db.View(outbox), r) == ServiceSpec.Update(old(db.View(outbox)), input, restValid, ctx)
    {
      var existing := db.GetMonitor(input.id, GetMonitor in ctx.fails);
      if existing == None { return Failed; }
      var m := input.(enabled := existing.value.enabled, deleted := existing.value.deleted);
      if !Valid(m, restValid) { return Failed; }
      var ok := db.UpdateMonitor(m, UpdateMonitor in ctx.fails);
      if !ok { return Failed; }
      r := Finish(Updated, m, ctx, outbox);
    }

    method Delete(id: Id, ctx: Context, ghost outbox: seq<NotifyJob>) returns (r: Outcome)
      requires Live(db.monitors, id) ==> db.monitors[id].id == id
      modifies db
      ensures (db.View(outbox), r) == ServiceSpec.Delete(old(db.View(outbox)), id, ctx)
    {
      var m := db.GetMonitor(id, GetMonitor in ctx.fails);
      if m == None { return Failed; }
      var ok := db.SoftDelete(id, DeleteMonitor in ctx.fails);
      if !ok { return Failed; }
      r := Finish(Deleted, m.value, ctx, outbox);
    }

    method SetEnabled(id: Id, enabled: bool, ctx: Context, ghost outbox: seq<NotifyJob>) returns (r: Outcome)
      requires Live(db.monitors, id) ==> db.monitors[id].id == id
      modifies db
      ensures (db.View(outbox), r) == ServiceSpec.SetEnabled(old(db.View(outbox)), id, enabled, ctx)
    {
      var got := db.GetMonitor(id, GetMonitor in ctx.fails);
      if got == None { return Failed; }
      if got.value.enabled == enabled { return Unchanged; }
      var m := got.value.(enabled := enabled);
      var ok := db.UpdateMonitor(m, UpdateMonitor in ctx.fails);
      if !ok { return Failed; }
      var status := db.GetState(id, ReadState in ctx.fails);
      if status == None { return Failed; }
      var state := Unknown;
      if !enabled { state := Paused; }
      ok := db.UpsertState(id, status.value.(state := state, updatedAt := ctx.at), WriteState in ctx.fails);
      if !ok { return Failed; }
      r := Finish(if enabled then Enabled else Disabled, m, ctx, outbox);
    }
  }
}
