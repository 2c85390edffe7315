/** The races between requests and checks, and between requests, of one monitor that the conditions of
    serialisation exclude: what each of them costs, and when. */
module Races {
  import opened Common
  import opened Monitors
  import opened Store
  import opened CheckRun
  import opened World
  import opened Projection
  import opened Commute
  import opened Requests
  import opened Placement
  import opened Audit
  import Service = ServiceSpec

  // ---- a check inside a toggle ----

  /** A toggle that has read the state row and not yet written it. */
  function Halfway(db: Tables, op: Op): (Tables, Request)
    requires op.ToggleOp? && TogglesState(db, op)
  {
    var m := db.monitors[op.id].(enabled := op.enabled);
    (db.(monitors := db.monitors[op.id := Stored(m)]), Request(op, Writing(m, Toggled(op, db.states[op.id]))))
  }

  lemma ReachesHalfway(db: Tables, op: Op)
    requires op.ToggleOp? && TogglesState(db, op) && Keyed(db)
    ensures var x1 := Step(db, Enter(op));
      && !x1.1.phase.Returned?
      && var x2 := Step(x1.0, x1.1);
      && !x2.1.phase.Returned?
      && Step(x2.0, x2.1) == Halfway(db, op)
  {}

  /** A whole check between the read and the write of a toggle. */
  function Inside(db: Tables, op: Op, p: Probe): Tables
    requires op.ToggleOp? && TogglesState(db, op)
  {
    var half := Halfway(db, op);
    Finish((RunCheck(half.0, op.id, p), half.1)).0
  }

  /** The check does inside the toggle what it would have done before it. */
  lemma InsideIsBefore(db: Tables, op: Op, p: Probe)
    requires op.ToggleOp? && TogglesState(db, op) && Keyed(db)
    ensures var half := Halfway(db, op);
      && Undo(RunCheck(half.0, op.id, p), half.1) == RunCheck(db, op.id, p)
      && RunCheck(half.0, op.id, p).monitors == half.0.monitors
  {
    var half := Halfway(db, op);
    var n := CompleteFrame(half.0, db, Begin(op.id, p));
    assert Before(half.1.phase.monitor) == db.monitors[op.id];
    assert half.0.monitors[op.id := db.monitors[op.id]] == db.monitors;
  }

  lemma InsideWrites(db: Tables, op: Op, p: Probe)
    requires op.ToggleOp? && TogglesState(db, op) && Keyed(db)
    ensures var t := Inside(db, op, p);
      && t.states == db.states[op.id := Toggled(op, db.states[op.id])] && t.checks == RunCheck(db, op.id, p).checks
  {
    var half := Halfway(db, op);
    var mid := RunCheck(half.0, op.id, p);
    CheckSummary(half.0, op.id, p);
    InsideIsBefore(db, op, p);
    var x := Step(mid, half.1);
    assert Finish((mid, half.1)) == Finish(x) == Finish(Step(x.0, x.1));
  }

  /** A toggle writes back the state row that it has read. A check in between leaves the tables in the health that
      check and toggle one after the other would leave, but its row is lost: the state rows are those of the
      serial order exactly when the check does not get to write one. */
  lemma CheckInsideToggle(db: Tables, op: Op, p: Probe)
    requires op.ToggleOp? && TogglesState(db, op) && Keyed(db)
    ensures var t, serial := Inside(db, op, p), Apply(RunCheck(db, op.id, p), op);
      && Alike(t, serial, Health)
      && (t.states == serial.states <==> !SavesState(db, op.id, p))
  {
    var half := Halfway(db, op);
    var mid := RunCheck(half.0, op.id, p);
    InsideIsBefore(db, op, p);
    InsideWrites(db, op, p);
    CheckSummary(db, op.id, p);
    CheckSummary(half.0, op.id, p);
    ToggleWritten(RunCheck(db, op.id, p), op);
    assert mid.states.Keys == db.states.Keys;
    assert Finish((mid, half.1)) == Finish(Step(mid, half.1));
    TakesPlace(mid, half.1, Health);
    var t, serial := Inside(db, op, p), Apply(RunCheck(db, op.id, p), op);
    assert t.states[op.id] == Toggled(op, db.states[op.id]);
    assert serial.states[op.id] == Toggled(op, RunCheck(db, op.id, p).states[op.id]);
  }

  /** Such a run from the start: a monitor is created and disabled, with its first, successful check inside the
      disable. The check is on record, and the counter says there was none. */
  lemma CounterIsLost(m: Monitor, created: Service.Context, off: Service.Context, p: Probe)
    requires m.enabled && m.interval > 0 && m.timeout > 0 && created.fails == {} && off.fails == {}
    requires p.success && p.fails == {}
    ensures var db := Apply(EMPTY, CreateOp(m, m.id, true, created));
      var op := ToggleOp(m.id, false, off);
      && TogglesState(db, op) && m.id in Inside(db, op, p).states
      && Inside(db, op, p).states[m.id].successes == 0 && Trailing(Inside(db, op, p).checks, true) == 1
      && !Summarises(Inside(db, op, p).states[m.id], Inside(db, op, p).checks)
  {
    CreationRows(CreateOp(m, m.id, true, created), m.id);
    var db := Apply(EMPTY, CreateOp(m, m.id, true, created));
    InsideWrites(db, ToggleOp(m.id, false, off), p);
    CheckAppends(db, m.id, p);
    TrailingAppend([], CheckRow(p.checkId, m.id, true, NextStatus(db.states[m.id], p).state, p.at), true);
  }

  // ---- a toggle inside an update ----

  /** An update has read the monitor, a whole disable runs, and the update goes on. */
  function Stale(db: Tables, update: Op, disable: Op): Tables
    requires update.UpdateOp? && disable.ToggleOp?
  {
    var x := Step(db, Enter(update));
    Finish((Finish((x.0, Enter(disable))).0, x.1)).0
  }

  lemma UpdateGoesOn(db: Tables, op: Op, m: Monitor)
    requires op.UpdateOp? && m.id == op.input.id && Live(db.monitors, m.id)
    ensures var t := Finish((db, Request(op, Storing(m)))).0;
      && t.states == db.states
      && t.monitors == if Service.UpdateMonitor in op.ctx.fails then db.monitors
                       else db.monitors[m.id := Stored(m).(deleted := false)]
  {
    var x := Step(db, Request(op, Storing(m)));
    assert Finish((db, Request(op, Storing(m)))) == Finish(x);
    if !x.1.phase.Returned? { assert Finish(x) == Finish(Step(x.0, x.1)); }
  }

  /** A disable inside an update of the same monitor leaves it paused; and enabled again, which no order of the two
      operations does, exactly when the update gets to write its row. */
  lemma DisableInsideUpdate(db: Tables, update: Op, disable: Op)
    requires update.UpdateOp? && disable.ToggleOp? && update.input.id == disable.id && !disable.enabled && Keyed(db)
    requires Service.GetMonitor !in update.ctx.fails && TogglesState(db, disable)
    ensures var t, id := Stale(db, update, disable), disable.id;
      && id in t.monitors && id in t.states && t.states[id].state == Paused
      && (t.monitors[id].enabled <==> Service.Valid(update.input, update.restValid) && Service.UpdateMonitor !in update.ctx.fails)
  {
    var id := disable.id;
    var x := Step(db, Enter(update));
    RequestAlone(db, disable);
    ToggleWritten(db, disable);
    var off := Apply(db, disable);
    assert off == Finish((x.0, Enter(disable))).0;
    if x.1.phase.Storing? { UpdateGoesOn(off, update, x.1.phase.monitor); }
  }

  lemma InEitherOrder(db: Tables, update: Op, disable: Op)
    requires update.UpdateOp? && disable.ToggleOp? && update.input.id == disable.id && !disable.enabled && Keyed(db)
    requires TogglesState(db, disable)
    ensures var id := disable.id;
      && var t := Apply(Apply(db, disable), update).monitors;
      && id in t && !t[id].enabled
      && var u := Apply(Apply(db, update), disable).monitors;
      && id in u && !u[id].enabled
  {
    ToggleWritten(db, disable);
    var updated := Apply(db, update);
    ToggleWritten(updated, disable);
    assert Live(updated.monitors, disable.id) && updated.monitors[disable.id].enabled == db.monitors[disable.id].enabled;
  }

  // ---- a check before the event of a toggle ----

  /** An enable has written the state row, a first check succeeds, and only then the enable is logged. */
  function Unlogged(db: Tables, op: Op, p: Probe): Tables
    requires op.ToggleOp? && TogglesState(db, op)
  {
    var half := Halfway(db, op);
    var x := Step(half.0, half.1);
    Finish((RunCheck(x.0, op.id, p), x.1)).0
  }

  lemma UnloggedEvents(db: Tables, op: Op, p: Probe)
    requires op.ToggleOp? && TogglesState(db, op) && Keyed(db) && op.ctx.fails == {} && p.fails == {}
    ensures var s := Toggled(op, db.states[op.id]);
      && Unlogged(db, op, p).events
         == (db.events + EventsOfCheck(s, op.id, p)) + [Event(op.ctx.eventId, KindOf(op), op.id, op.ctx.at)]
      && op.id in Unlogged(db, op, p).states && Unlogged(db, op, p).states[op.id].state == TransitionOf(s, p).to
  {
    var half := Halfway(db, op);
    var x := Step(half.0, half.1);
    assert x.0.states[op.id] == Toggled(op, db.states[op.id]) && x.0.events == db.events;
    CheckAppends(x.0, op.id, p);
    CheckSummary(x.0, op.id, p);
    var mid := RunCheck(x.0, op.id, p);
    assert Finish((mid, x.1)) == Finish(Step(mid, x.1));
  }

  /** From a log that replays, with paused meaning disabled and no faults: a check between the write and the event of
      a toggle leaves a log that replays to the final state exactly when the toggle is a disable. After an enable
      the change from unknown stands before the event that leads to unknown. */
  lemma EventComesLate(db: Tables, op: Op, p: Probe, initial: MonitorState)
    requires op.ToggleOp? && TogglesState(db, op) && Keyed(db) && op.ctx.fails == {} && p.fails == {}
    requires Replay(db.events, initial) == Some(db.states[op.id].state)
    requires db.states[op.id].state == Paused <==> !db.monitors[op.id].enabled
    ensures var t := Unlogged(db, op, p);
      && op.id in t.states
      && (Replay(t.events, initial) == Some(t.states[op.id].state) <==> !op.enabled)
  {
    var s := Toggled(op, db.states[op.id]);
    var events, last := EventsOfCheck(s, op.id, p), Event(op.ctx.eventId, KindOf(op), op.id, op.ctx.at);
    UnloggedEvents(db, op, p);
    ReplayAppend(db.events + events, last, initial);
    if op.enabled {
      var change := events[0];
      assert Follow(Some(Paused), change.kind) == None;
      if |events| == 1 {
        assert events == [change];
        ReplayAppend(db.events, change, initial);
      } else {
        assert events == [change, events[1]];
        ReplayTwo(db.events, change, events[1], initial);
      }
    } else {
      assert events == [] && db.events + [] == db.events;
    }
  }

  /** Such a run from the start: a monitor is created disabled and enabled, with its first check before the event. */
  lemma EnableIsLoggedLate(m: Monitor, created: Service.Context, on: Service.Context, p: Probe)
    requires !m.enabled && m.interval > 0 && m.timeout > 0 && created.fails == {} && on.fails == {} && p.fails == {}
    ensures var db := Apply(EMPTY, CreateOp(m, m.id, true, created));
      var op := ToggleOp(m.id, true, on);
      && TogglesState(db, op) && m.id in Unlogged(db, op, p).states
      && Replay(Unlogged(db, op, p).events, Paused) != Some(Unlogged(db, op, p).states[m.id].state)
  {
    CreationRows(CreateOp(m, m.id, true, created), m.id);
    var db := Apply(EMPTY, CreateOp(m, m.id, true, created));
    var first := Event(created.eventId, Created, m.id, created.at);
    ReplayAppend([], first, Paused);
    assert db.events == [] + [first];
    EventComesLate(db, ToggleOp(m.id, true, on), p, Paused);
  }
}
