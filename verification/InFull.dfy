/** What checks and lifecycle operations write, row by row and field by field. */
module InFull {
  import opened Common
  import opened Monitors
  import opened Store
  import opened CheckRun
  import opened World
  import Service = ServiceSpec

  // ---- checks ----

  /** The jobs of a check that may notify: a notifier is wired, the monitor wants it, and no gate is closed. */
  function Announcing(p: Probe, job: NotifyJob): seq<NotifyJob> {
    if p.wired && p.wanted && (p.gate == None || p.gate == Some(true)) then [job] else []
  }

  /** A failing check of a monitor that is up or unknown, without faults: one check row, the change of state, an
      incident with the probe's error as its reason, its event and its job, and the new state row. */
  lemma OutageInFull(db: Tables, id: Id, p: Probe)
    requires id in db.states && db.states[id].state in {Unknown, Up} && !p.success && p.fails == {}
    ensures var t, s := RunCheck(db, id, p), db.states[id];
      && t.monitors == db.monitors
      && t.states == db.states[
           id := Status(Down, Some(p.checkId), Some(p.at), s.lastSuccessAt, Some(p.at), 0, s.failures + 1, p.at)]
      && t.checks == db.checks + [CheckRow(p.checkId, id, false, Down, p.at)]
      && t.events == db.events + [Event(p.changeId, StateChanged(s.state, Down), id, p.at),
                                  Event(p.incidentEventId, IncidentOpened, id, p.at)]
      && t.incidents == db.incidents + [Incident(p.incidentId, id, p.at, None, p.incidentEventId, None, p.reason)]
      && t.outbox == db.outbox + Announcing(p, NotifyJob(MonitorDown, id, p.incidentId, p.incidentEventId))
  {
    CheckSummary(db, id, p);
    LogInFull(db, id, p);
    GateCases(p.gate);
  }

  lemma GateCases(gate: Option<bool>)
    ensures gate != Some(false) <==> gate == None || gate == Some(true)
  {
    match gate
    case None =>
    case Some(open) => if open { assert gate == Some(true); } else { assert gate == Some(false); }
  }

  /** A successful check of a monitor that is down and has an open incident, without faults: the latest open one is
      resolved. */
  lemma RecoveryInFull(db: Tables, id: Id, p: Probe)
    requires id in db.states && db.states[id].state == Down && p.success && p.fails == {}
    requires FindOpen(db.incidents, id).Some?
    ensures var t, s, found := RunCheck(db, id, p), db.states[id], db.incidents[FindOpen(db.incidents, id).value];
      && t.monitors == db.monitors
      && t.states == db.states[
           id := Status(Up, Some(p.checkId), Some(p.at), Some(p.at), s.lastFailureAt, s.successes + 1, 0, p.at)]
      && t.checks == db.checks + [CheckRow(p.checkId, id, true, Up, p.at)]
      && t.events == db.events + [Event(p.changeId, StateChanged(Down, Up), id, p.at),
                                  Event(p.incidentEventId, IncidentResolved, id, p.at)]
      && |t.incidents| == |db.incidents|
      && (forall k | 0 <= k < |db.incidents| :: t.incidents[k] ==
            if db.incidents[k].id == found.id && db.incidents[k].resolvedAt == None
            then db.incidents[k].(resolvedAt := Some(p.at), endEvent := Some(p.incidentEventId)) else db.incidents[k])
      && t.outbox == db.outbox + Announcing(p, NotifyJob(MonitorRecovered, id, found.id, p.incidentEventId))
  {
    CheckSummary(db, id, p);
    LogInFull(db, id, p);
    GateCases(p.gate);
  }

  /** A first successful check of an unknown monitor. */
  lemma FirstSuccessInFull(db: Tables, id: Id, p: Probe)
    requires id in db.states && db.states[id].state == Unknown && p.success && p.fails == {}
    ensures var t, s := RunCheck(db, id, p), db.states[id];
      && t.monitors == db.monitors && t.incidents == db.incidents && t.outbox == db.outbox
      && t.states == db.states[
           id := Status(Up, Some(p.checkId), Some(p.at), Some(p.at), s.lastFailureAt, s.successes + 1, 0, p.at)]
      && t.checks == db.checks + [CheckRow(p.checkId, id, true, Up, p.at)]
      && t.events == db.events + [Event(p.changeId, StateChanged(Unknown, Up), id, p.at)]
  {
    CheckSummary(db, id, p);
    LogInFull(db, id, p);
    assert db.outbox + [] == db.outbox;
  }

  /** A check that changes nothing: a success while up, a failure while down, anything while paused. */
  lemma SteadyInFull(db: Tables, id: Id, p: Probe)
    requires id in db.states && p.fails == {}
    requires db.states[id].state == Paused || db.states[id].state == (if p.success then Up else Down)
    ensures var t, s := RunCheck(db, id, p), db.states[id];
      && t.monitors == db.monitors && t.incidents == db.incidents && t.outbox == db.outbox && t.events == db.events
      && t.states == db.states[
           id := Status(
             s.state, Some(p.checkId), Some(p.at),
             if p.success then Some(p.at) else s.lastSuccessAt, if p.success then s.lastFailureAt else Some(p.at),
             if p.success then s.successes + 1 else 0, if p.success then 0 else s.failures + 1, p.at)]
      && t.checks == db.checks + [CheckRow(p.checkId, id, p.success, s.state, p.at)]
  {
    CheckSummary(db, id, p);
    LogInFull(db, id, p);
    assert db.outbox + [] == db.outbox;
  }

  /** The check row and the events of a check without faults that finds what it resolves. */
  lemma LogInFull(db: Tables, id: Id, p: Probe)
    requires id in db.states && p.fails == {}
    requires TransitionOf(db.states[id], p).resolveIncident ==> FindOpen(db.incidents, id).Some?
    ensures var t, s, c := RunCheck(db, id, p), db.states[id], TransitionOf(db.states[id], p);
      && t.checks == db.checks + [CheckRow(p.checkId, id, p.success, c.to, p.at)]
      && t.events == db.events +
           (if s.state == c.to then []
            else [Event(p.changeId, StateChanged(s.state, c.to), id, p.at)]
                 + (if c.to == Down then [Event(p.incidentEventId, IncidentOpened, id, p.at)]
                    else if s.state == Down && c.to == Up then [Event(p.incidentEventId, IncidentResolved, id, p.at)]
                    else []))
  {
    CheckInClosedForm(db, id, p);
    var c := TransitionOf(db.states[id], p);
    assert db.events + [] == db.events;
    if c.emitStateChange {
      var change := Event(p.changeId, StateChanged(c.from, c.to), id, p.at);
      var kind := if c.openIncident then IncidentOpened else IncidentResolved;
      assert (db.events + [change]) + [Event(p.incidentEventId, kind, id, p.at)]
          == db.events + ([change] + [Event(p.incidentEventId, kind, id, p.at)]);
      assert [change] + [] == [change];
    }
  }

  /** Whatever fails, an incident opens exactly in a failing check of a monitor that was read as up or unknown and
      whose calls up to that one succeed; then it is one, unresolved, with what the probe said. */
  lemma OpensExactly(db: Tables, id: Id, p: Probe)
    ensures var t := RunCheck(db, id, p);
      if && id in db.states && db.states[id].state in {Unknown, Up} && !p.success
         && p.fails !! {GetState, InsertCheck, InsertChange, InsertOpened, OpenIncident}
      then t.incidents == db.incidents + [Incident(p.incidentId, id, p.at, None, p.incidentEventId, None, p.reason)]
      else |t.incidents| == |db.incidents|
  {
    CheckInClosedForm(db, id, p);
  }

  // ---- a check stops at its first fault ----

  /** How far a failing check of a monitor that is up gets when one call fails. */
  lemma OutageStops(db: Tables, id: Id, p: Probe)
    requires id in db.states && db.states[id].state == Up && !p.success && |p.fails| == 1
    ensures var t := RunCheck(db, id, p);
      var row := CheckRow(p.checkId, id, false, Down, p.at);
      var change := Event(p.changeId, StateChanged(Up, Down), id, p.at);
      var begun := Event(p.incidentEventId, IncidentOpened, id, p.at);
      && t.monitors == db.monitors
      && (GetState in p.fails || InsertCheck in p.fails ==> t == db)
      && (InsertChange in p.fails ==> t == db.(checks := db.checks + [row]))
      && (InsertOpened in p.fails ==> t == db.(checks := db.checks + [row], events := db.events + [change]))
      && (OpenIncident in p.fails ==> t == db.(checks := db.checks + [row], events := db.events + [change, begun]))
      && (UpsertState in p.fails ==>
            t.states == db.states && t.events == db.events + [change, begun]
            && t.incidents == db.incidents + [Incident(p.incidentId, id, p.at, None, p.incidentEventId, None, p.reason)])
  {
    CheckInClosedForm(db, id, p);
    OneFault(p);
    var change := Event(p.changeId, StateChanged(Up, Down), id, p.at);
    var begun := Event(p.incidentEventId, IncidentOpened, id, p.at);
    assert (db.events + [change]) + [begun] == db.events + [change, begun];
  }

  lemma OneFault(p: Probe)
    requires |p.fails| == 1
    ensures forall c, d :: c in p.fails && d in p.fails ==> c == d
  {
    forall c, d | c in p.fails && d in p.fails ensures c == d {
      assert |p.fails - {c}| == 0;
      assert d in p.fails - {c} || d == c;
    }
  }

  /** How far a successful check of a monitor that is down gets. */
  lemma RecoveryStops(db: Tables, id: Id, p: Probe)
    requires id in db.states && db.states[id].state == Down && p.success && |p.fails| <= 1
    ensures var t := RunCheck(db, id, p);
      var row := CheckRow(p.checkId, id, true, Up, p.at);
      var change := Event(p.changeId, StateChanged(Down, Up), id, p.at);
      var resolved := Event(p.incidentEventId, IncidentResolved, id, p.at);
      && (GetState in p.fails || InsertCheck in p.fails ==> t == db)
      && (InsertChange in p.fails ==> t == db.(checks := db.checks + [row]))
      && (FindOpenIncident in p.fails || InsertResolved in p.fails ==>
            t == db.(checks := db.checks + [row], events := db.events + [change]))
      && (p.fails == {} && FindOpen(db.incidents, id) == None ==>
            t == db.(checks := db.checks + [row], events := db.events + [change]))
      && (ResolveIncident in p.fails && FindOpen(db.incidents, id).Some? ==>
            t == db.(checks := db.checks + [row], events := db.events + [change, resolved]))
  {
    CheckInClosedForm(db, id, p);
    if p.fails != {} { OneFault(p); }
    var change := Event(p.changeId, StateChanged(Down, Up), id, p.at);
    var resolved := Event(p.incidentEventId, IncidentResolved, id, p.at);
    assert (db.events + [change]) + [resolved] == db.events + [change, resolved];
  }

  // ---- lifecycle operations ----

  /** A creation is refused, without any effect, exactly for an interval or timeout that is not positive or other
      fields that do not pass; one without faults writes the monitor in whole seconds, a state row that is
      paused or unknown, and its event, and reports the monitor as given. */
  lemma CreateInFull(db: Tables, m: Monitor, id: Id, valid: bool, ctx: Service.Context)
    requires id !in db.monitors && ctx.fails == {}
    ensures var r := Service.Create(db, m, id, valid, ctx);
      if m.interval <= 0 || m.timeout <= 0 || !valid then r == (db, Service.Failed)
      else
        && r.1 == Service.Notified(Service.Change(Created, m.(id := id, deleted := false)))
        && r.0.monitors == db.monitors[id := Stored(m.(id := id, deleted := false))]
        && r.0.states == db.states[id := Status(if m.enabled then Unknown else Paused, None, None, None, None, 0, 0, ctx.at)]
        && r.0.events == db.events + [Event(ctx.eventId, Created, id, ctx.at)]
        && r.0.checks == db.checks && r.0.incidents == db.incidents && r.0.outbox == db.outbox
  {}

  /** An update of a missing or deleted monitor, or with fields that do not pass, is refused without effect; the
      enabled flag is that of the stored row. */
  lemma UpdateInFull(db: Tables, m: Monitor, valid: bool, ctx: Service.Context)
    requires ctx.fails == {}
    ensures var r := Service.Update(db, m, valid, ctx);
      if m.id !in db.monitors || db.monitors[m.id].deleted || m.interval <= 0 || m.timeout <= 0 || !valid
      then r == (db, Service.Failed)
      else
        var n := m.(enabled := db.monitors[m.id].enabled, deleted := false);
        && r.1 == Service.Notified(Service.Change(Updated, n))
        && r.0 == db.(monitors := db.monitors[m.id := Stored(n)],
                      events := db.events + [Event(ctx.eventId, Updated, m.id, ctx.at)])
  {}

  lemma DeleteInFull(db: Tables, id: Id, ctx: Service.Context)
    requires ctx.fails == {} && OwnIds(db.monitors)
    ensures var r := Service.Delete(db, id, ctx);
      if id !in db.monitors || db.monitors[id].deleted then r == (db, Service.Failed)
      else
        && r.1 == Service.Notified(Service.Change(Deleted, db.monitors[id]))
        && r.0 == db.(monitors := db.monitors[id := db.monitors[id].(deleted := true)],
                      events := db.events + [Event(ctx.eventId, Deleted, id, ctx.at)])
  {}

  lemma ToggleInFull(db: Tables, id: Id, enabled: bool, ctx: Service.Context)
    requires ctx.fails == {} && OwnIds(db.monitors) && forall id | id in db.monitors :: id in db.states
    ensures var r := Service.SetEnabled(db, id, enabled, ctx);
      if id !in db.monitors || db.monitors[id].deleted then r == (db, Service.Failed)
      else if db.monitors[id].enabled == enabled then r == (db, Service.Unchanged)
      else
        var n := db.monitors[id].(enabled := enabled);
        && r.1 == Service.Notified(Service.Change(if enabled then Enabled else Disabled, n))
        && r.0 == db.(
             monitors := db.monitors[id := Stored(n)],
             states := db.states[id := db.states[id].(state := if enabled then Unknown else Paused, updatedAt := ctx.at)],
             events := db.events + [Event(ctx.eventId, if enabled then Enabled else Disabled, id, ctx.at)])
  {}
}
