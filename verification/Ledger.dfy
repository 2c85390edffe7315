/** The incident ledger: how many incidents of a monitor are open after any run, faults included, and
    what follows for runs without faults. */
module Ledger {
  import opened Common
  import opened Monitors
  import opened Store
  import opened CheckRun
  import opened World
  import Service = ServiceSpec

  // ---- the three ways in which open incidents and the state can drift apart ----

  /** The check opened an incident but its state row was not written. */
  function LostOpen(id: Id): (Tables, Op) -> bool {
    (db: Tables, op: Op) =>
      op.CheckOp? && op.id == id && OpensIncident(db, id, op.probe) && UpsertState in op.probe.fails
  }

  /** The check resolved an incident but its state row was not written. */
  function LostResolve(id: Id): (Tables, Op) -> bool {
    (db: Tables, op: Op) =>
      op.CheckOp? && op.id == id && ResolvesIncident(db, id, op.probe) && UpsertState in op.probe.fails
  }

  /** The monitor was disabled or enabled while its state was down, and the state row was written. */
  function ToggledDown(id: Id): (Tables, Op) -> bool {
    (db: Tables, op: Op) => op.ToggleOp? && op.id == id && TogglesState(db, op) && db.states[id].state == Down
  }

  function IsDown(db: Tables, id: Id): nat { if id in db.states && db.states[id].state == Down then 1 else 0 }

  // ---- what holds of the tables in every run ----

  ghost predicate Sound(db: Tables) {
    && DistinctIncidents(db)
    && (forall i | i in db.incidents :: i.monitor in db.states)
    && db.states.Keys <= db.monitors.Keys
    && OwnIds(db.monitors)
  }

  lemma AddIncident(db: Tables, incident: Incident, id: Id)
    requires Sound(db) && incident.monitor in db.states && forall i | i in db.incidents :: i.id != incident.id
    ensures var t := db.(incidents := db.incidents + [incident]);
      Sound(t) && OpenCount(t, id) == OpenCount(db, id) + if IsOpen(incident, id) then 1 else 0
  {
    CountAppend(db.incidents, incident, OpenFor(id));
  }

  lemma ResolveOne(db: Tables, k: nat, at: Stamp, event: Id, id: Id)
    requires Sound(db) && k < |db.incidents| && db.incidents[k].resolvedAt == None
    ensures var t := db.(incidents := ResolveRows(db.incidents, db.incidents[k].id, at, event));
      Sound(t) && OpenCount(t, id) == OpenCount(db, id) - if db.incidents[k].monitor == id then 1 else 0
  {
    ResolveRowsCount(db, k, at, event, id);
  }

  lemma IncidentsKeep(db: Tables, id: Id, p: Probe, other: Id)
    requires Sound(db) && Fresh(db, CheckOp(id, p))
    ensures var t := db.(incidents := IncidentsAfter(db, id, p));
      && Sound(t)
      && OpenCount(t, other) == OpenCount(db, other)
           + (if other == id && OpensIncident(db, id, p) then 1 else 0)
           - (if other == id && ResolvesIncident(db, id, p) then 1 else 0)
  {
    if OpensIncident(db, id, p) {
      AddIncident(db, NewIncident(id, p), other);
    } else if ResolvesIncident(db, id, p) {
      ResolveOne(db, FindOpen(db.incidents, id).value, p.at, p.incidentEventId, other);
    }
  }

  lemma CheckKeeps(db: Tables, id: Id, p: Probe, other: Id)
    requires Sound(db) && Fresh(db, CheckOp(id, p))
    ensures var op, t := CheckOp(id, p), RunCheck(db, id, p);
      && Sound(t)
      && OpenCount(t, other) - IsDown(t, other) - OpenCount(db, other) + IsDown(db, other)
         == (if LostOpen(other)(db, op) then 1 else 0) - (if LostResolve(other)(db, op) then 1 else 0)
  {
    CheckSummary(db, id, p);
    IncidentsKeep(db, id, p, other);
  }

  lemma ToggleKeeps(db: Tables, op: Op, id: Id)
    requires Sound(db) && op.ToggleOp?
    ensures var t := Apply(db, op);
      && Sound(t) && t.incidents == db.incidents && t.outbox == db.outbox
      && IsDown(db, id) - IsDown(t, id) == (if ToggledDown(id)(db, op) then 1 else 0)
  {
    ToggleWritten(db, op);
  }

  lemma CreateKeeps(db: Tables, op: Op, id: Id)
    requires Sound(db) && op.CreateOp?
    ensures var t := Apply(db, op);
      Sound(t) && t.incidents == db.incidents && t.outbox == db.outbox && IsDown(db, id) == IsDown(t, id)
  {
    var t := Apply(db, op);
    assert t.incidents == db.incidents && db.states.Keys <= t.states.Keys;
  }

  lemma EditKeeps(db: Tables, op: Op)
    requires Sound(db) && (op.UpdateOp? || op.DeleteOp?)
    ensures var t := Apply(db, op);
      Sound(t) && t.incidents == db.incidents && t.outbox == db.outbox && t.states == db.states
  {
    var t := Apply(db, op);
    assert t.incidents == db.incidents && t.states == db.states;
  }

  lemma LifecycleKeeps(db: Tables, op: Op, id: Id)
    requires Sound(db) && !op.CheckOp?
    ensures var t := Apply(db, op);
      && Sound(t) && t.incidents == db.incidents && t.outbox == db.outbox
      && IsDown(db, id) - IsDown(t, id) == (if ToggledDown(id)(db, op) then 1 else 0)
  {
    match op
    case CreateOp(_, _, _, _) => CreateKeeps(db, op, id);
    case ToggleOp(_, _, _) => ToggleKeeps(db, op, id);
    case _ => EditKeeps(db, op);
  }

  lemma StepKeeps(db: Tables, op: Op, id: Id)
    requires Sound(db) && Fresh(db, op)
    ensures var t := Apply(db, op);
      && Sound(t)
      && OpenCount(t, id) - IsDown(t, id) - OpenCount(db, id) + IsDown(db, id)
         == (if LostOpen(id)(db, op) then 1 else 0) + (if ToggledDown(id)(db, op) then 1 else 0)
            - (if LostResolve(id)(db, op) then 1 else 0)
  {
    if op.CheckOp? { CheckKeeps(db, op.id, op.probe, id); } else { LifecycleKeeps(db, op, id); }
  }

  lemma {:induction false} RunBalance(db: Tables, ops: seq<Op>, id: Id)
    requires Sound(db) && FreshRun(db, ops)
    ensures Sound(Run(db, ops))
    ensures OpenCount(Run(db, ops), id) - IsDown(Run(db, ops), id) - OpenCount(db, id) + IsDown(db, id)
         == Tally(db, ops, LostOpen(id)) + Tally(db, ops, ToggledDown(id)) - Tally(db, ops, LostResolve(id))
    decreases |ops|
  {
    if ops == [] {
    } else {
      StepKeeps(db, ops[0], id);
      RunBalance(Apply(db, ops[0]), ops[1..], id);
    }
  }

  /** Incident conservation in every run, whatever calls fail: a monitor's open incidents are the one its
      down state accounts for, plus those orphaned by a toggle while down or by a lost state write after
      opening, less those resolved while the state write was lost. */
  lemma IncidentLedger(ops: seq<Op>, id: Id)
    requires FreshRun(EMPTY, ops)
    ensures OpenCount(Run(EMPTY, ops), id) + Tally(EMPTY, ops, LostResolve(id))
         == IsDown(Run(EMPTY, ops), id) + Tally(EMPTY, ops, LostOpen(id)) + Tally(EMPTY, ops, ToggledDown(id))
  {
    RunBalance(EMPTY, ops, id);
  }

  // ---- runs without faults ----

  /** A disable of `id` that takes effect while its state is down. */
  function DisabledDown(id: Id): (Tables, Op) -> bool {
    (db: Tables, op: Op) =>
      op.ToggleOp? && op.id == id && !op.enabled && Live(db.monitors, id) && db.monitors[id].enabled
      && id in db.states && db.states[id].state == Down
  }

  /** paused exactly when disabled, and every monitor has a state row. */
  ghost predicate PausedIffDisabled(db: Tables) {
    forall id | id in db.monitors :: id in db.states && (db.states[id].state == Paused <==> !db.monitors[id].enabled)
  }

  lemma PausedStep(db: Tables, op: Op)
    requires Sound(db) && PausedIffDisabled(db) && FaultFree(op)
    ensures PausedIffDisabled(Apply(db, op))
  {
    if op.CheckOp? {
      CheckSummary(db, op.id, op.probe);
    } else if op.ToggleOp? {
      ToggleWritten(db, op);
    }
  }

  lemma {:induction false} FaultFreeTallies(db: Tables, ops: seq<Op>, id: Id)
    requires Sound(db) && PausedIffDisabled(db) && FreshRun(db, ops) && AllFaultFree(ops)
    ensures PausedIffDisabled(Run(db, ops))
    ensures Tally(db, ops, LostOpen(id)) == 0 && Tally(db, ops, LostResolve(id)) == 0
    ensures Tally(db, ops, ToggledDown(id)) == Tally(db, ops, DisabledDown(id))
    decreases |ops|
  {
    if ops == [] {
    } else {
      assert FaultFree(ops[0]);
      StepKeeps(db, ops[0], id);
      PausedStep(db, ops[0]);
      FaultFreeTallies(Apply(db, ops[0]), ops[1..], id);
    }
  }

  /** Without faults: open incidents = disables taken while down + 1 if the state is down; and the state is
      paused exactly while the monitor is disabled. */
  lemma FaultFreeConservation(ops: seq<Op>, id: Id)
    requires FreshRun(EMPTY, ops) && AllFaultFree(ops)
    ensures OpenCount(Run(EMPTY, ops), id) == Tally(EMPTY, ops, DisabledDown(id)) + IsDown(Run(EMPTY, ops), id)
    ensures PausedIffDisabled(Run(EMPTY, ops))
  {
    IncidentLedger(ops, id);
    FaultFreeTallies(EMPTY, ops, id);
  }

  lemma TogglesTo(db: Tables, id: Id, enabled: bool, ctx: Service.Context)
    requires Sound(db) && Live(db.monitors, id) && id in db.states && db.monitors[id].enabled != enabled && ctx.fails == {}
    ensures var t := Apply(db, ToggleOp(id, enabled, ctx));
      && Sound(t) && t.incidents == db.incidents && id in t.states && t.states[id].state == Service.InitialState(enabled)
      && Live(t.monitors, id) && t.monitors[id].enabled == enabled
  {
    LifecycleKeeps(db, ToggleOp(id, enabled, ctx), id);
  }

  lemma FailsAgain(db: Tables, id: Id, p: Probe)
    requires Sound(db) && id in db.states && db.states[id].state == Unknown && !p.success && p.fails == {}
    requires Fresh(db, CheckOp(id, p))
    ensures OpenCount(RunCheck(db, id, p), id) == OpenCount(db, id) + 1
  {
    CheckSummary(db, id, p);
    AddIncident(db, NewIncident(id, p), id);
  }

  /** A run without faults that ends with two open incidents: created, failing, disabled, enabled, failing again. */
  lemma TwoOpenIncidents(m: Monitor, ctxs: seq<Service.Context>, first: Probe, second: Probe)
    requires m.enabled && m.interval > 0 && m.timeout > 0
    requires |ctxs| == 3 && forall c | c in ctxs :: c.fails == {}
    requires !first.success && !second.success && first.fails == {} && second.fails == {}
    requires first.incidentId != second.incidentId
    ensures var ops := [CreateOp(m, m.id, true, ctxs[0]), CheckOp(m.id, first), ToggleOp(m.id, false, ctxs[1]),
                        ToggleOp(m.id, true, ctxs[2]), CheckOp(m.id, second)];
      FreshRun(EMPTY, ops) && AllFaultFree(ops) && OpenCount(Run(EMPTY, ops), m.id) == 2
  {
    var ops := [CreateOp(m, m.id, true, ctxs[0]), CheckOp(m.id, first), ToggleOp(m.id, false, ctxs[1]),
                ToggleOp(m.id, true, ctxs[2]), CheckOp(m.id, second)];
    FirstFailure(m, m.id, ctxs[0], first);
    var db2 := Apply(Apply(EMPTY, ops[0]), ops[1]);
    TogglesTo(db2, m.id, false, ctxs[1]);
    var db3 := Apply(db2, ops[2]);
    TogglesTo(db3, m.id, true, ctxs[2]);
    var db4 := Apply(db3, ops[3]);
    FailsAgain(db4, m.id, second);
    RunOfFive(EMPTY, ops);
    assert ops[0] in ops;
  }

  lemma RunOfFive(db: Tables, ops: seq<Op>)
    requires |ops| == 5
    ensures var d1 := Apply(db, ops[0]);
      var d2 := Apply(d1, ops[1]);
      var d3 := Apply(d2, ops[2]);
      var d4 := Apply(d3, ops[3]);
      && Run(db, ops) == Apply(d4, ops[4])
      && (FreshRun(db, ops) <==>
            Fresh(db, ops[0]) && Fresh(d1, ops[1]) && Fresh(d2, ops[2]) && Fresh(d3, ops[3]) && Fresh(d4, ops[4]))
  {
    var o1, o2, o3, o4 := ops[1..], ops[2..], ops[3..], ops[4..];
    assert o1[1..] == o2 && o2[1..] == o3 && o3[1..] == o4 && o4[1..] == [];
    var d1 := Apply(db, ops[0]);
    var d2 := Apply(d1, o1[0]);
    var d3 := Apply(d2, o2[0]);
    var d4 := Apply(d3, o3[0]);
    assert Run(d4, o4) == Run(Apply(d4, o4[0]), []) == Apply(d4, o4[0]);
    assert Run(db, ops) == Run(d1, o1) == Run(d2, o2) == Run(d3, o3) == Run(d4, o4);
    assert FreshRun(d4, o4) <==> Fresh(d4, o4[0]);
    assert FreshRun(d3, o3) <==> Fresh(d3, o3[0]) && FreshRun(d4, o4);
    assert FreshRun(d2, o2) <==> Fresh(d2, o2[0]) && FreshRun(d3, o3);
    assert FreshRun(d1, o1) <==> Fresh(d1, o1[0]) && FreshRun(d2, o2);
  }

  /** If moreover the monitor was never disabled while down, an incident is open exactly while it is down,
      and the lookup of a recovering check finds it. */
  lemma OneIncidentExactlyWhileDown(ops: seq<Op>, id: Id)
    requires FreshRun(EMPTY, ops) && AllFaultFree(ops) && Tally(EMPTY, ops, DisabledDown(id)) == 0
    ensures var db := Run(EMPTY, ops);
      && OpenCount(db, id) <= 1
      && (OpenCount(db, id) == 1 <==> id in db.states && db.states[id].state == Down)
      && (FindOpen(db.incidents, id).Some? <==> id in db.states && db.states[id].state == Down)
  {
    FaultFreeConservation(ops, id);
    FindOpenCount(Run(EMPTY, ops), id);
  }

  // ---- recovery after faults ----

  /** Down with nothing to resolve. */
  ghost predicate Stuck(db: Tables, id: Id) {
    id in db.states && db.states[id].state == Down && OpenCount(db, id) == 0
  }

  /** A fault-free successful check takes a down monitor to up exactly when it has an open incident. */
  lemma RecoversIffOpen(db: Tables, id: Id, p: Probe)
    requires id in db.states && db.states[id].state == Down && p.success && p.fails == {}
    ensures var t := RunCheck(db, id, p);
      id in t.states && t.states[id].state == if OpenCount(db, id) > 0 then Up else Down
  {
    CheckSummary(db, id, p);
    FindOpenCount(db, id);
  }

  /** No check, whatever its outcome and its faults, leads out of the stuck condition. */
  lemma StuckForGood(db: Tables, id: Id, other: Id, p: Probe)
    requires Sound(db) && Stuck(db, id) && Fresh(db, CheckOp(other, p))
    ensures Stuck(RunCheck(db, other, p), id)
  {
    CheckKeeps(db, other, p, id);
    CheckSummary(db, other, p);
    FindOpenCount(db, id);
  }

  /** The ledger tells which runs end stuck. */
  lemma StuckByLedger(ops: seq<Op>, id: Id)
    requires FreshRun(EMPTY, ops)
    ensures var db := Run(EMPTY, ops);
      Stuck(db, id) <==>
        IsDown(db, id) == 1
        && Tally(EMPTY, ops, LostResolve(id))
           == 1 + Tally(EMPTY, ops, LostOpen(id)) + Tally(EMPTY, ops, ToggledDown(id))
  {
    IncidentLedger(ops, id);
  }

  /** A recovery that loses only its last write sticks exactly when it resolved the only open incident. */
  lemma LostWriteSticks(db: Tables, id: Id, p: Probe)
    requires Sound(db) && Fresh(db, CheckOp(id, p))
    requires id in db.states && db.states[id].state == Down && p.success && p.fails == {UpsertState}
    ensures Stuck(RunCheck(db, id, p), id) <==> OpenCount(db, id) <= 1
  {
    CheckKeeps(db, id, p, id);
    CheckSummary(db, id, p);
    FindOpenCount(db, id);
  }

  /** One operation leads out of the stuck condition exactly when it is a toggle that writes the state row. */
  lemma StuckEndsExactly(db: Tables, op: Op, id: Id)
    requires Sound(db) && Stuck(db, id) && Fresh(db, op)
    ensures !Stuck(Apply(db, op), id) <==> ToggledDown(id)(db, op)
  {
    if op.CheckOp? {
      StuckForGood(db, id, op.id, op.probe);
    } else {
      LifecycleKeeps(db, op, id);
    }
  }

  lemma FirstFailure(m: Monitor, id: Id, ctx: Service.Context, p: Probe)
    requires m.interval > 0 && m.timeout > 0 && m.enabled && ctx.fails == {} && !p.success && p.fails == {}
    ensures var db := RunCheck(Service.Create(EMPTY, m, id, true, ctx).0, id, p);
      && Sound(db) && db.incidents == [NewIncident(id, p)] && OpenCount(db, id) == 1
      && id in db.states && db.states[id].state == Down
      && Live(db.monitors, id) && db.monitors[id].enabled
  {
    var db := Service.Create(EMPTY, m, id, true, ctx).0;
    LifecycleKeeps(EMPTY, CreateOp(m, id, true, ctx), id);
    CheckSummary(db, id, p);
    CheckKeeps(db, id, p, id);
  }

  /** Such a run exists: create, one failed check, one success that loses its state write. */
  lemma StuckIsReachable(m: Monitor, id: Id, ctx: Service.Context, down: Probe, up: Probe)
    requires m.interval > 0 && m.timeout > 0 && m.enabled && ctx.fails == {}
    requires !down.success && down.fails == {} && up.success && up.fails == {UpsertState}
    requires down.incidentId != up.incidentId
    ensures var ops := [CreateOp(m, id, true, ctx), CheckOp(id, down), CheckOp(id, up)];
      FreshRun(EMPTY, ops) && Stuck(Run(EMPTY, ops), id)
  {
    FirstFailure(m, id, ctx, down);
    var ops := [CreateOp(m, id, true, ctx), CheckOp(id, down), CheckOp(id, up)];
    var db1 := Apply(EMPTY, ops[0]);
    var db2 := Apply(db1, ops[1]);
    LostWriteSticks(db2, id, up);
    assert Run(EMPTY, ops) == Run(db1, ops[1..]) == Run(db2, ops[1..][1..]) == Apply(db2, ops[2]);
    assert FreshRun(db2, ops[1..][1..]) && FreshRun(db1, ops[1..]);
  }
}
