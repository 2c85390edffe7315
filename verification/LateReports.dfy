/** What a report that comes late can do: a run with two checks of one monitor at the same time, and a run that
    leaves a deleted monitor on schedule for good. */
module LateReports {
  import opened Common
  import opened Monitors
  import opened Store
  import opened World
  import opened Projection
  import opened Requests
  import opened Reports
  import Service = ServiceSpec
  import Mirror
  import Spec = SchedulerSpec

  lemma TurnsCons(v: Registry, t: Turn, rest: seq<Turn>)
    requires CanTurn(v, t) && CanTurns(TurnTo(v, t), rest)
    ensures CanTurns(v, [t] + rest) && RunTurns(v, [t] + rest) == RunTurns(TurnTo(v, t), rest)
  {
    assert ([t] + rest)[1..] == rest;
  }

  lemma {:induction false} TurnsConcat(v: Registry, xs: seq<Turn>, ys: seq<Turn>)
    requires CanTurns(v, xs) && CanTurns(RunTurns(v, xs), ys)
    ensures CanTurns(v, xs + ys) && RunTurns(v, xs + ys) == RunTurns(RunTurns(v, xs), ys)
    decreases |xs|
  {
    if xs == [] {
      assert xs + ys == ys;
    } else {
      assert (xs + ys)[1..] == xs[1..] + ys;
      TurnsConcat(TurnTo(v, xs[0]), xs[1..], ys);
    }
  }

  // ---- requests that run alone ----

  function ReportOf(outcome: Service.Outcome): seq<Service.Change> {
    if outcome.Notified? then [outcome.change] else []
  }

  /** A request makes its remaining calls one after the other. */
  lemma {:induction false} Proceeds(v: Registry, k: nat) returns (turns: seq<Turn>)
    requires Keyed(v.db) && k in v.requests && Founded(v.db.monitors, v.requests[k])
    ensures CanTurns(v, turns)
    ensures var end := Finish((v.db, v.requests[k]));
      RunTurns(v, turns) == v.(db := end.0, requests := v.requests - {k}, reports := v.reports + ReportOf(end.1))
    decreases StepsLeft(v.requests[k].phase)
  {
    var r, u := v.requests[k], TurnTo(v, Proceed(k));
    var next := Step(v.db, r);
    StepKeepsRows(v.db, r);
    assert Finish((v.db, r)) == Finish(next);
    if next.1.phase.Returned? {
      assert Reported(next.1) == ReportOf(next.1.phase.outcome);
      TurnsCons(v, Proceed(k), []);
      turns := [Proceed(k)];
    } else {
      assert u.reports == v.reports && u.requests - {k} == v.requests - {k};
      var rest := Proceeds(u, k);
      TurnsCons(v, Proceed(k), rest);
      turns := [Proceed(k)] + rest;
    }
  }

  /** A request that runs alone leaves its rows and its report. */
  lemma Requested(v: Registry, k: nat, op: Op) returns (turns: seq<Turn>)
    requires Keyed(v.db) && k !in v.requests && !op.CheckOp?
    ensures CanTurns(v, turns)
    ensures var end := Lifecycle(v.db, op); RunTurns(v, turns) == v.(db := end.0, reports := v.reports + ReportOf(end.1))
  {
    var u := TurnTo(v, Ask(k, op));
    RequestAlone(v.db, op);
    var rest := Proceeds(u, k);
    assert u.requests - {k} == v.requests;
    TurnsCons(v, Ask(k, op), rest);
    turns := [Ask(k, op)] + rest;
  }

  lemma RequestKeeps(db: Tables, op: Op)
    requires Keyed(db) && !op.CheckOp?
    ensures Keyed(Lifecycle(db, op).0)
  {
    match op
    case ToggleOp(_, _, _) => ToggleWritten(db, op);
    case _ =>
  }

  // ---- a check ----

  /** A registered monitor is triggered by hand and its job reaches worker `w`. */
  function Checked(id: Id, w: nat): seq<Turn> {
    [Background(Spec.DoFire(id, true)), Background(Spec.DoPoll(0)), Background(Spec.DoSend(0)), Background(Spec.DoTake(w))]
  }

  /** The scheduler runs, nothing is on its way to the workers, and `id` can be triggered. */
  ghost predicate Ready(s: Spec.State, id: Id, w: nat) {
    && s.started && !s.done && s.size >= 1 && s.fires == [] && s.jobs == []
    && id in s.entries && !s.entries[id].running && w < |s.workers| && s.workers[w].Idle?
  }

  lemma CheckReaches(v: Registry, id: Id, w: nat)
    requires Ready(v.scheduler, id, w)
    ensures CanTurns(v, Checked(id, w))
    ensures var s, e := v.scheduler, v.scheduler.entries[id];
      RunTurns(v, Checked(id, w)) == v.(scheduler := s.(
        entries := s.entries[id := e.(running := true)], workers := s.workers[w := Spec.Busy(Spec.Job(e.monitor, true))]))
  {
    var v1 := TurnTo(v, Background(Spec.DoFire(id, true)));
    var v2 := TurnTo(v1, Background(Spec.DoPoll(0)));
    var v3 := TurnTo(v2, Background(Spec.DoSend(0)));
    TurnsCons(v3, Background(Spec.DoTake(w)), []);
    TurnsCons(v2, Background(Spec.DoSend(0)), [Background(Spec.DoTake(w))]);
    TurnsCons(v1, Background(Spec.DoPoll(0)), [Background(Spec.DoSend(0)), Background(Spec.DoTake(w))]);
    TurnsCons(v, Background(Spec.DoFire(id, true)), Checked(id, w)[1..]);
    assert Checked(id, w) == [Background(Spec.DoFire(id, true))] + Checked(id, w)[1..];
    assert v3.scheduler.jobs[1..] == [];
  }

  // ---- an update and a delete whose reports change places ----

  lemma UpdateAndDelete(db: Tables, m: Monitor, updated: Service.Context, deleted: Service.Context)
    requires Live(db.monitors, m.id) && m.interval > 0 && m.timeout > 0 && updated.fails == {} && deleted.fails == {}
    ensures var row := m.(enabled := db.monitors[m.id].enabled, deleted := false);
      var r := Lifecycle(db, UpdateOp(m, true, updated));
      && r.1 == Service.Notified(Service.Change(Updated, row))
      && var s := Lifecycle(r.0, DeleteOp(m.id, deleted));
      && s.1 == Service.Notified(Service.Change(Deleted, Stored(row)))
      && m.id in s.0.monitors && s.0.monitors[m.id].deleted
  {
    var r := Lifecycle(db, UpdateOp(m, true, updated));
    assert Live(r.0.monitors, m.id);
  }

  /** The scheduler after a removal that overtakes an upsert: registered, and the flag is lost. */
  lemma LateUpsert(s: Spec.State, removed: Monitor, m: Monitor)
    requires removed.id == m.id
    ensures var t := Mirror.ObserveChange(Mirror.ObserveChange(s, Service.Change(Deleted, removed)), Service.Change(Updated, m));
      && m.id in t.entries && !t.entries[m.id].running && t.entries[m.id].monitor == m
      && t.workers == s.workers && t.fires == s.fires && t.jobs == s.jobs
      && t.started == s.started && t.done == s.done && t.size == s.size
  {}

  /** Of two pending reports the second comes first. */
  lemma ReportsSwap(v: Registry, a: Service.Change, b: Service.Change)
    requires v.reports == [a, b]
    ensures CanTurns(v, [Report(1), Report(0)])
    ensures RunTurns(v, [Report(1), Report(0)])
         == v.(scheduler := Mirror.ObserveChange(Mirror.ObserveChange(v.scheduler, b), a), reports := [])
  {
    var u := TurnTo(v, Report(1));
    assert u.reports == [a];
    TurnsCons(u, Report(0), []);
    TurnsCons(v, Report(1), [Report(0)]);
    assert [Report(1), Report(0)] == [Report(1)] + [Report(0)];
  }

  lemma Overtaken(v: Registry, m: Monitor, updated: Service.Context, deleted: Service.Context) returns (turns: seq<Turn>)
    requires Keyed(v.db) && v.requests == map[] && v.reports == [] && Live(v.db.monitors, m.id)
    requires m.interval > 0 && m.timeout > 0 && updated.fails == {} && deleted.fails == {}
    ensures CanTurns(v, turns)
    ensures var u, s, t := RunTurns(v, turns), v.scheduler, RunTurns(v, turns).scheduler;
      && u.requests == map[] && u.reports == [] && m.id in u.db.monitors && u.db.monitors[m.id].deleted
      && m.id in t.entries && !t.entries[m.id].running
      && t.entries[m.id].monitor == m.(enabled := v.db.monitors[m.id].enabled, deleted := false)
      && t.workers == s.workers && t.fires == s.fires && t.jobs == s.jobs
      && t.started == s.started && t.done == s.done && t.size == s.size
  {
    var row := m.(enabled := v.db.monitors[m.id].enabled, deleted := false);
    var up, down := Service.Change(Updated, row), Service.Change(Deleted, Stored(row));
    var update, delete := UpdateOp(m, true, updated), DeleteOp(m.id, deleted);
    UpdateAndDelete(v.db, m, updated, deleted);
    LateUpsert(v.scheduler, Stored(row), row);
    RequestKeeps(v.db, update);
    var first := Requested(v, 0, update);
    var v1 := RunTurns(v, first);
    assert v1.reports == [up];
    var second := Requested(v1, 0, delete);
    var v2 := RunTurns(v1, second);
    assert v2.reports == [up, down];
    ReportsSwap(v2, up, down);
    TurnsConcat(v1, second, [Report(1), Report(0)]);
    TurnsConcat(v, first, second + [Report(1), Report(0)]);
    turns := first + (second + [Report(1), Report(0)]);
  }

  /** A started service in which the monitor has been created and registered. */
  lemma Creation(workers: int, m: Monitor, created: Service.Context) returns (turns: seq<Turn>)
    requires workers >= 1 && m.interval > 0 && m.timeout > 0 && created.fails == {}
    ensures CanTurns(Startup(workers, EMPTY), turns)
    ensures var v := RunTurns(Startup(workers, EMPTY), turns);
      && v.requests == map[] && v.reports == [] && Keyed(v.db)
      && Live(v.db.monitors, m.id) && v.db.monitors[m.id].enabled == m.enabled
      && v.scheduler.started && !v.scheduler.done && v.scheduler.size == workers
      && v.scheduler.fires == [] && v.scheduler.jobs == [] && v.scheduler.workers == seq(workers, _ => Spec.Idle)
      && m.id in v.scheduler.entries && !v.scheduler.entries[m.id].running && v.scheduler.entries[m.id].monitor.id == m.id
  {
    var v, row, op := Startup(workers, EMPTY), m.(deleted := false), CreateOp(m, m.id, true, created);
    var v1 := TurnTo(v, Background(Spec.DoStart));
    RequestKeeps(EMPTY, op);
    var asked := Requested(v1, 0, op);
    var v2 := RunTurns(v1, asked);
    assert v2.reports == [Service.Change(Created, row)] && v2.db.monitors == map[m.id := Stored(row)];
    TurnsCons(v2, Report(0), []);
    TurnsConcat(v1, asked, [Report(0)]);
    TurnsCons(v, Background(Spec.DoStart), asked + [Report(0)]);
    turns := [Background(Spec.DoStart)] + (asked + [Report(0)]);
  }

  /** Without the guard the no-overlap rule fails: the monitor is created, a check of it executes, an update and a
      delete are made while their reports change places, and a second worker checks the monitor as well. */
  lemma LateReportOverlaps(m: Monitor, created: Service.Context, updated: Service.Context, deleted: Service.Context)
    returns (turns: seq<Turn>)
    requires m.interval > 0 && m.timeout > 0
    requires created.fails == {} && updated.fails == {} && deleted.fails == {}
    ensures CanTurns(Startup(2, EMPTY), turns)
    ensures var workers := RunTurns(Startup(2, EMPTY), turns).scheduler.workers;
      |workers| == 2 && Spec.BusyWith(m.id)(workers[0]) && Spec.BusyWith(m.id)(workers[1])
  {
    var v := Startup(2, EMPTY);
    var born := Creation(2, m, created);
    var v1 := RunTurns(v, born);
    CheckReaches(v1, m.id, 0);
    var v2 := RunTurns(v1, Checked(m.id, 0));
    var late := Overtaken(v2, m, updated, deleted);
    var v3 := RunTurns(v2, late);
    CheckReaches(v3, m.id, 1);
    TurnsConcat(v2, late, Checked(m.id, 1));
    TurnsConcat(v1, Checked(m.id, 0), late + Checked(m.id, 1));
    TurnsConcat(v, born, Checked(m.id, 0) + (late + Checked(m.id, 1)));
    turns := born + (Checked(m.id, 0) + (late + Checked(m.id, 1)));
  }

  // ---- a ghost on schedule ----

  /** The request has written its row. */
  predicate Wrote(r: Request) { r.phase.Reading? || r.phase.Writing? || r.phase.Logging? }

  /** The monitor is deleted and still registered, and nothing is under way that would report it. */
  ghost predicate Lingers(v: Registry, id: Id) {
    && id in v.scheduler.entries && id in v.db.monitors && v.db.monitors[id].deleted
    && (forall k | k in v.requests :: Target(v.requests[k].op) == id ==> !Wrote(v.requests[k]))
    && (forall c | c in v.reports :: c.monitor.id != id)
  }

  lemma ProceedLingers(v: Registry, k: nat, id: Id)
    requires Lingers(v, id) && CanTurn(v, Proceed(k))
    ensures Lingers(TurnTo(v, Proceed(k)), id)
  {
    var r, t := v.requests[k], TurnTo(v, Proceed(k));
    var next := Step(v.db, r);
    assert next.1.op == r.op;
    assert id in next.0.monitors && next.0.monitors[id].deleted;
    if Target(r.op) == id { assert next.1.phase.Returned? || next.1.phase.Storing?; }
    assert forall c | c in Reported(next.1) :: c.monitor.id != id;
    forall c | c in t.reports ensures c.monitor.id != id { assert c in v.reports || c in Reported(next.1); }
  }

  lemma TurnLingers(v: Registry, t: Turn, id: Id)
    requires Lingers(v, id) && CanTurn(v, t)
    ensures Lingers(TurnTo(v, t), id)
  {
    match t
    case Background(a) => BackgroundIds(v.scheduler, a);
    case Proceed(k) => ProceedLingers(v, k, id);
    case Report(i) =>
      assert v.reports[i] in v.reports;
      assert forall c | c in TurnTo(v, t).reports :: c in v.reports;
    case _ =>
  }

  /** Whatever happens until Stop returns, the deleted monitor stays registered. */
  lemma {:induction false} LingersForGood(v: Registry, turns: seq<Turn>, id: Id)
    requires Lingers(v, id) && CanTurns(v, turns)
    ensures Lingers(RunTurns(v, turns), id)
    decreases |turns|
  {
    if turns == [] {
    } else {
      TurnLingers(v, turns[0], id);
      LingersForGood(TurnTo(v, turns[0]), turns[1..], id);
    }
  }

  /** Such a run: the report of an update comes after that of a delete, and the deleted monitor is checked on. */
  lemma LateUpdateLingers(m: Monitor, created: Service.Context, updated: Service.Context, deleted: Service.Context)
    returns (turns: seq<Turn>)
    requires m.enabled && m.interval > 0 && m.timeout > 0
    requires created.fails == {} && updated.fails == {} && deleted.fails == {}
    ensures CanTurns(Startup(1, EMPTY), turns)
    ensures var v := RunTurns(Startup(1, EMPTY), turns); Lingers(v, m.id) && Spec.FireAccepts(v.scheduler, m.id, false)
  {
    var v := Startup(1, EMPTY);
    var born := Creation(1, m, created);
    var v1 := RunTurns(v, born);
    var late := Overtaken(v1, m, updated, deleted);
    TurnsConcat(v, born, late);
    turns := born + late;
  }
}
