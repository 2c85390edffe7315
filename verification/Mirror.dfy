/** The scheduler mirrors the monitors table: its entries are the rows that are not deleted, and the live
    tickers are one for each entry that is to be scheduled. */
module Mirror {
  import opened Common
  import opened Monitors
  import opened Store
  import opened World
  import Projection
  import Spec = SchedulerSpec
  import Service = ServiceSpec

  /** The observer that connects the service to the scheduler. */
  function Observe(s: Spec.State, outcome: Service.Outcome): Spec.State {
    if outcome.Notified? then ObserveChange(s, outcome.change) else s
  }

  function ObserveChange(s: Spec.State, change: Service.Change): Spec.State {
    if change.kind == Deleted
    then Spec.CancelTicker(Spec.Forget(s, change.monitor.id), Spec.PriorTicker(s, change.monitor.id))
    else Spec.Upsert(s, change.monitor)
  }

  /** The entry of a live row carries the monitor as last reported; reading it back from the table would
      truncate its durations to seconds. */
  ghost predicate EntriesMatch(monitors: map<Id, Monitor>, s: Spec.State) {
    && (forall id :: id in s.entries <==> Live(monitors, id))
    && (forall id | id in s.entries :: Stored(s.entries[id].monitor) == monitors[id])
  }

  /** `t` is the ticker of the entry under `id`. */
  predicate Owns(s: Spec.State, id: Id, t: nat) { id in s.entries && s.entries[id].ticker == Some(t) }

  ghost predicate TickersMatch(s: Spec.State) {
    && (forall id | id in s.entries ::
          && s.entries[id].monitor.id == id
          && (s.entries[id].ticker.Some? <==> Spec.ShouldSchedule(s.entries[id].monitor))
          && (s.entries[id].ticker.Some? ==> s.entries[id].ticker.value < |s.tickers|))
    && (forall t: nat | t < |s.tickers| :: !s.tickers[t].cancelled ==> Owns(s, s.tickers[t].id, t))
    && (forall id, t: nat | t < |s.tickers| && Owns(s, id, t) ::
          s.tickers[t] == Spec.Ticker(id, s.entries[id].monitor.interval, false))
  }

  ghost predicate Mirrors(db: Tables, s: Spec.State) {
    && s.started && !s.stopped
    && OwnIds(db.monitors)
    && EntriesMatch(db.monitors, s) && TickersMatch(s)
  }

  lemma CancelKeepsOthers(s: Spec.State, id: Id)
    requires TickersMatch(s)
    ensures var t := Spec.CancelTicker(Spec.Forget(s, id), Spec.PriorTicker(s, id));
      TickersMatch(t) && forall k: nat | k < |t.tickers| && !t.tickers[k].cancelled :: t.tickers[k].id != id
  {
    var t := Spec.CancelTicker(Spec.Forget(s, id), Spec.PriorTicker(s, id));
    forall k: nat | k < |t.tickers| && !t.tickers[k].cancelled
      ensures Owns(t, t.tickers[k].id, k) && t.tickers[k].id != id {
      assert Owns(s, s.tickers[k].id, k);
    }
    forall jd, k: nat | k < |t.tickers| && Owns(t, jd, k)
      ensures t.tickers[k] == Spec.Ticker(jd, t.entries[jd].monitor.interval, false) {
      assert Owns(s, jd, k);
    }
  }

  lemma UpsertTickers(s: Spec.State, m: Monitor)
    requires s.started && !s.stopped && TickersMatch(s)
    ensures TickersMatch(Spec.Upsert(s, m))
  {
    CancelKeepsOthers(s, m.id);
    var t := Spec.CancelTicker(Spec.Forget(s, m.id), Spec.PriorTicker(s, m.id));
    var u := Spec.Upsert(s, m);
    assert forall id | id in u.entries && id != m.id :: id in t.entries && u.entries[id] == t.entries[id];
    forall k: nat | k < |u.tickers| && !u.tickers[k].cancelled ensures Owns(u, u.tickers[k].id, k) {
      if k < |t.tickers| { assert Owns(t, t.tickers[k].id, k); }
    }
    forall id, k: nat | k < |u.tickers| && Owns(u, id, k)
      ensures u.tickers[k] == Spec.Ticker(id, u.entries[id].monitor.interval, false) {
      if id != m.id { assert Owns(t, id, k); }
    }
  }

  lemma ObserveTickers(s: Spec.State, outcome: Service.Outcome)
    requires s.started && !s.stopped && TickersMatch(s)
    ensures var t := Observe(s, outcome); TickersMatch(t) && t.started && !t.stopped
  {
    if outcome.Notified? {
      if outcome.change.kind == Deleted {
        CancelKeepsOthers(s, outcome.change.monitor.id);
      } else {
        UpsertTickers(s, outcome.change.monitor);
      }
    }
  }

  /** What a reported change says about the table. */
  lemma ReportedRow(db: Tables, op: Op)
    requires !op.CheckOp? && OwnIds(db.monitors)
    ensures var r := Lifecycle(db, op);
      r.1.Notified? ==>
        var m := r.1.change.monitor;
        if r.1.change.kind == Deleted
        then Live(db.monitors, m.id) && r.0.monitors == db.monitors[m.id := m.(deleted := true)]
        else r.0.monitors == db.monitors[m.id := Stored(m)] && !m.deleted
             && (Live(db.monitors, m.id) || m.id !in db.monitors)
  {
    assert forall m: Monitor :: Stored(Stored(m)) == Stored(m);
  }

  lemma ReportedKeeps(db: Tables, s: Spec.State, op: Op)
    requires Mirrors(db, s) && !op.CheckOp? && Lifecycle(db, op).1.Notified?
    ensures EntriesMatch(Apply(db, op).monitors, Observe(s, Lifecycle(db, op).1))
  {
    ReportedRow(db, op);
  }

  lemma RowsStayKeyed(db: Tables, op: Op)
    requires !op.CheckOp? && OwnIds(db.monitors)
    ensures OwnIds(Apply(db, op).monitors)
  {}

  /** The operation writes a monitor row and then meets a failing call before its report: whether it will can
      be told from the tables and the calls that fail. */
  predicate LosesReport(db: Tables, op: Op) {
    match op
    case CheckOp(_, _) => false
    case CreateOp(m, id, valid, ctx) =>
      && Service.Valid(m, valid) && id !in db.monitors && Service.InsertMonitor !in ctx.fails
      && (Service.WriteState in ctx.fails || Service.RecordEvent in ctx.fails)
    case UpdateOp(m, valid, ctx) =>
      && Service.GetMonitor !in ctx.fails && Live(db.monitors, m.id)
      && Service.Valid(m, valid) && Service.UpdateMonitor !in ctx.fails
      && Stored(m.(enabled := db.monitors[m.id].enabled, deleted := false)) != db.monitors[m.id]
      && Service.RecordEvent in ctx.fails
    case DeleteOp(id, ctx) =>
      && Service.GetMonitor !in ctx.fails && Live(db.monitors, id) && Service.DeleteMonitor !in ctx.fails
      && Service.RecordEvent in ctx.fails
    case ToggleOp(id, enabled, ctx) =>
      && Service.GetMonitor !in ctx.fails && Live(db.monitors, id) && db.monitors[id].enabled != enabled
      && Service.UpdateMonitor !in ctx.fails
      && (Service.ReadState in ctx.fails || id !in db.states || Service.WriteState in ctx.fails
          || Service.RecordEvent in ctx.fails)
  }

  lemma LosesReportExactly(db: Tables, op: Op)
    requires OwnIds(db.monitors) && !op.CheckOp?
    ensures var r := Lifecycle(db, op); LosesReport(db, op) <==> !r.1.Notified? && r.0.monitors != db.monitors
  {
    match op
    case CreateOp(m, id, _, _) =>
      var row := Stored(m.(id := id, deleted := false));
      assert id !in db.monitors ==> id in db.monitors[id := row];
    case UpdateOp(m, _, _) =>
      if Live(db.monitors, m.id) {
        var row := Stored(m.(enabled := db.monitors[m.id].enabled, deleted := false));
        assert db.monitors[m.id := row] == db.monitors <==> row == db.monitors[m.id];
      }
    case DeleteOp(id, _) =>
      if Live(db.monitors, id) {
        assert db.monitors[id := db.monitors[id].(deleted := true)][id].deleted;
      }
    case ToggleOp(id, enabled, _) =>
      if Live(db.monitors, id) {
        assert db.monitors[id := Stored(db.monitors[id].(enabled := enabled))][id].enabled == enabled;
      }
    case _ =>
  }

  /** After one lifecycle operation the scheduler still mirrors the table exactly when the operation does not fail
      between writing its row and reporting. */
  lemma MirrorsExactly(db: Tables, s: Spec.State, op: Op)
    requires Mirrors(db, s) && !op.CheckOp?
    ensures var r := Lifecycle(db, op); Mirrors(r.0, Observe(s, r.1)) <==> !LosesReport(db, op)
  {
    var r := Lifecycle(db, op);
    LosesReportExactly(db, op);
    ObserveTickers(s, r.1);
    RowsStayKeyed(db, op);
    if r.1.Notified? {
      ReportedKeeps(db, s, op);
    } else {
      OneRowWritten(db, op);
    }
  }

  lemma OneRowWritten(db: Tables, op: Op)
    requires !op.CheckOp?
    ensures var t, id := Apply(db, op).monitors, Projection.Target(op);
      || t == db.monitors
      || (id in t && (Live(db.monitors, id) || (id !in db.monitors && Live(t, id))) && t == db.monitors[id := t[id]])
  {}

  /** Without faults every operation that writes a row reports it. */
  lemma FaultFreeReports(db: Tables, op: Op)
    requires !op.CheckOp? && FaultFree(op)
    requires forall id | id in db.monitors :: id in db.states
    ensures var r := Lifecycle(db, op); r.1.Notified? || r.0.monitors == db.monitors
  {}

  // ---- runs ----

  ghost function RunObserved(db: Tables, s: Spec.State, ops: seq<Op>): (Tables, Spec.State)
    decreases |ops|
  {
    if ops == [] then (db, s) else
    var r := Lifecycle(db, ops[0]);
    RunObserved(r.0, Observe(s, r.1), ops[1..])
  }

  lemma {:induction false} RunMirrors(db: Tables, s: Spec.State, ops: seq<Op>)
    requires Mirrors(db, s) && (forall id | id in db.monitors :: id in db.states)
    requires forall op | op in ops :: !op.CheckOp? && FaultFree(op)
    ensures var r := RunObserved(db, s, ops); Mirrors(r.0, r.1)
    decreases |ops|
  {
    if ops == [] { return; }
    assert ops[0] in ops;
    MirrorsExactly(db, s, ops[0]);
    FaultFreeReports(db, ops[0]);
    var r := Lifecycle(db, ops[0]);
    RunMirrors(r.0, Observe(s, r.1), ops[1..]);
  }

  // ---- startup ----

  ghost function Load(s: Spec.State, rows: seq<Monitor>): Spec.State
    decreases |rows|
  {
    if rows == [] then s else Load(Spec.Upsert(s, rows[0]), rows[1..])
  }

  lemma {:induction false} LoadTickers(s: Spec.State, rows: seq<Monitor>)
    requires s.started && !s.stopped && TickersMatch(s)
    ensures var t := Load(s, rows); t.started && !t.stopped && TickersMatch(t)
    decreases |rows|
  {
    if rows == [] {
    } else {
      UpsertTickers(s, rows[0]);
      LoadTickers(Spec.Upsert(s, rows[0]), rows[1..]);
    }
  }

  lemma {:induction false} LoadLeaves(s: Spec.State, rows: seq<Monitor>, id: Id)
    requires forall i | 0 <= i < |rows| :: rows[i].id != id
    ensures var t := Load(s, rows);
      && (id in t.entries <==> id in s.entries)
      && (id in s.entries ==> t.entries[id].monitor == s.entries[id].monitor)
    decreases |rows|
  {
    if rows == [] {
    } else {
      LoadLeaves(Spec.Upsert(s, rows[0]), rows[1..], id);
    }
  }

  lemma {:induction false} LoadInstalls(s: Spec.State, rows: seq<Monitor>, k: nat)
    requires k < |rows| && forall i, j | 0 <= i < j < |rows| :: rows[i].id != rows[j].id
    ensures var t := Load(s, rows); rows[k].id in t.entries && t.entries[rows[k].id].monitor == rows[k]
    decreases |rows|
  {
    var u, rest := Spec.Upsert(s, rows[0]), rows[1..];
    if k > 0 {
      LoadInstalls(u, rest, k - 1);
    } else {
      assert forall i | 0 <= i < |rest| :: rest[i] == rows[i + 1];
      LoadLeaves(u, rest, rows[0].id);
    }
  }

  /** Loading the live rows of the table into a started scheduler makes it mirror the table. */
  lemma StartupMirrors(workers: int, db: Tables, rows: seq<Monitor>)
    requires forall i, j | 0 <= i < j < |rows| :: rows[i].id != rows[j].id
    requires forall i | 0 <= i < |rows| :: Live(db.monitors, rows[i].id) && rows[i] == db.monitors[rows[i].id]
    requires forall id | Live(db.monitors, id) :: exists i | 0 <= i < |rows| :: rows[i].id == id
    requires OwnIds(db.monitors) && forall id | id in db.monitors :: Stored(db.monitors[id]) == db.monitors[id]
    ensures Mirrors(db, Load(Spec.Start(Spec.Init(workers)), rows))
  {
    var s := Spec.Start(Spec.Init(workers));
    LoadTickers(s, rows);
    forall i | 0 <= i < |rows|
      ensures var t := Load(s, rows); rows[i].id in t.entries && t.entries[rows[i].id].monitor == rows[i] {
      LoadInstalls(s, rows, i);
    }
    forall id | !Live(db.monitors, id) ensures id !in Load(s, rows).entries { LoadLeaves(s, rows, id); }
  }

  /** The service as it runs: started, loaded from its table, then any lifecycle operations without faults. */
  lemma SchedulerMirrorsDatabase(workers: int, db: Tables, rows: seq<Monitor>, ops: seq<Op>)
    requires forall i, j | 0 <= i < j < |rows| :: rows[i].id != rows[j].id
    requires forall i | 0 <= i < |rows| :: Live(db.monitors, rows[i].id) && rows[i] == db.monitors[rows[i].id]
    requires forall id | Live(db.monitors, id) :: exists i | 0 <= i < |rows| :: rows[i].id == id
    requires OwnIds(db.monitors) && forall id | id in db.monitors :: Stored(db.monitors[id]) == db.monitors[id]
    requires forall id | id in db.monitors :: id in db.states
    requires forall op | op in ops :: !op.CheckOp? && FaultFree(op)
    ensures var r := RunObserved(db, Load(Spec.Start(Spec.Init(workers)), rows), ops); Mirrors(r.0, r.1)
  {
    StartupMirrors(workers, db, rows);
    RunMirrors(db, Load(Spec.Start(Spec.Init(workers)), rows), ops);
  }

  /** A monitor that is scheduled now is scheduled again after a restart, which reads its row back, exactly
      when its interval is at least a second: a shorter one is accepted but stored as zero. */
  lemma RestartKeepsTicker(m: Monitor)
    requires Spec.ShouldSchedule(m)
    ensures Spec.ShouldSchedule(Stored(m)) <==> m.interval >= SECOND
  {}

  // ---- two runs in which scheduler and table part ----

  lemma CreationMirrors(workers: int, m: Monitor, ctx: Service.Context)
    requires m.interval > 0 && m.timeout > 0 && ctx.fails == {}
    ensures var r := Lifecycle(EMPTY, CreateOp(m, m.id, true, ctx));
      var s := Observe(Spec.Start(Spec.Init(workers)), r.1);
      && Mirrors(r.0, s) && r.1 == Service.Notified(Service.Change(Created, m.(deleted := false)))
      && r.0.monitors == map[m.id := Stored(m.(deleted := false))]
      && m.id in s.entries && s.entries[m.id].monitor == m.(deleted := false)
  {
    assert Mirrors(EMPTY, Spec.Start(Spec.Init(workers)));
    MirrorsExactly(EMPTY, Spec.Start(Spec.Init(workers)), CreateOp(m, m.id, true, ctx));
  }

  /** A deletion that fails to record its event: the row is deleted, and the scheduler goes on checking. */
  lemma LostDeletionKeepsChecking(workers: int, m: Monitor, created: Service.Context, deleted: Service.Context)
    requires m.enabled && m.interval > 0 && m.timeout > 0
    requires created.fails == {} && deleted.fails == {Service.RecordEvent}
    ensures var ops := [CreateOp(m, m.id, true, created), DeleteOp(m.id, deleted)];
      var r := RunObserved(EMPTY, Spec.Start(Spec.Init(workers)), ops);
      && m.id in r.0.monitors && r.0.monitors[m.id].deleted && !Mirrors(r.0, r.1)
      && Spec.FireAccepts(r.1, m.id, false)
  {
    var s := Spec.Start(Spec.Init(workers));
    var create, delete := CreateOp(m, m.id, true, created), DeleteOp(m.id, deleted);
    CreationMirrors(workers, m, created);
    var r := Lifecycle(EMPTY, create);
    MirrorsExactly(r.0, Observe(s, r.1), delete);
    var u := Lifecycle(r.0, delete);
    assert RunObserved(EMPTY, s, [create, delete]) == RunObserved(r.0, Observe(s, r.1), [delete])
        == RunObserved(u.0, Observe(Observe(s, r.1), u.1), []) by {
      assert [create, delete][1..] == [delete] && [delete][1..] == [];
    }
  }

  /** An accepted interval below a second: the monitor ticks at first, and no more once its row has been read
      back, as a restart does. */
  lemma SubSecondStopsTicking(workers: int, m: Monitor, ctx: Service.Context)
    requires m.enabled && 0 < m.interval < SECOND && m.timeout > 0 && ctx.fails == {}
    ensures var r := Lifecycle(EMPTY, CreateOp(m, m.id, true, ctx));
      var before := Observe(Spec.Start(Spec.Init(workers)), r.1);
      var after := Load(Spec.Start(Spec.Init(workers)), [r.0.monitors[m.id]]);
      && Mirrors(r.0, before) && m.id in before.entries && before.entries[m.id].ticker.Some?
      && m.id in after.entries && after.entries[m.id].ticker == None && !Spec.FireAccepts(after, m.id, false)
  {
    CreationMirrors(workers, m, ctx);
    RestartKeepsTicker(m.(deleted := false));
    var row := Stored(m.(deleted := false));
    var s := Spec.Start(Spec.Init(workers));
    assert [row][1..] == [];
    assert Load(s, [row]) == Load(Spec.Upsert(s, row), []) == Spec.Upsert(s, row);
  }

  /** An enable reads the row back as well: the entry has a ticker exactly when the stored interval is not zero. */
  lemma EnableTicks(db: Tables, s: Spec.State, id: Id, ctx: Service.Context)
    requires Mirrors(db, s) && Live(db.monitors, id) && !db.monitors[id].enabled && id in db.states && ctx.fails == {}
    requires Stored(db.monitors[id]) == db.monitors[id]
    ensures var r := Lifecycle(db, ToggleOp(id, true, ctx));
      var t := Observe(s, r.1);
      && Mirrors(r.0, t) && id in t.entries && (t.entries[id].ticker.Some? <==> db.monitors[id].interval > 0)
  {
    MirrorsExactly(db, s, ToggleOp(id, true, ctx));
  }

  /** A created monitor, disabled: the row has been read back once. */
  lemma DisabledAfterCreation(workers: int, m: Monitor, created: Service.Context, off: Service.Context)
    requires m.enabled && m.interval > 0 && m.timeout > 0 && created.fails == {} && off.fails == {}
    ensures var r := Lifecycle(EMPTY, CreateOp(m, m.id, true, created));
      var q := Lifecycle(r.0, ToggleOp(m.id, false, off));
      var s := Observe(Observe(Spec.Start(Spec.Init(workers)), r.1), q.1);
      && Mirrors(q.0, s) && m.id in q.0.states
      && m.id in q.0.monitors && q.0.monitors[m.id] == Stored(m.(enabled := false, deleted := false))
  {
    CreationMirrors(workers, m, created);
    var r := Lifecycle(EMPTY, CreateOp(m, m.id, true, created));
    MirrorsExactly(r.0, Observe(Spec.Start(Spec.Init(workers)), r.1), ToggleOp(m.id, false, off));
    ToggleWritten(r.0, ToggleOp(m.id, false, off));
    StoredTwice(m.(deleted := false), false);
  }

  lemma StoredTwice(m: Monitor, enabled: bool)
    ensures Stored(Stored(m).(enabled := enabled)) == Stored(m.(enabled := enabled))
    ensures Stored(Stored(m)) == Stored(m)
  {}

  lemma DisabledRow(m: Monitor)
    requires m.interval > 0
    ensures var row := Stored(m.(enabled := false, deleted := false));
      !row.enabled && !row.deleted && Stored(row) == row && (row.interval > 0 <==> m.interval >= SECOND)
  {}

  /** Enabled again, the monitor ticks exactly when its interval is at least a second. */
  lemma EnabledAgain(db: Tables, s: Spec.State, m: Monitor, ctx: Service.Context)
    requires Mirrors(db, s) && m.id in db.states && ctx.fails == {} && m.interval > 0
    requires m.id in db.monitors && db.monitors[m.id] == Stored(m.(enabled := false, deleted := false))
    ensures var r := Lifecycle(db, ToggleOp(m.id, true, ctx));
      var t := Observe(s, r.1);
      && Mirrors(r.0, t) && m.id in t.entries && (t.entries[m.id].ticker.Some? <==> m.interval >= SECOND)
  {
    DisabledRow(m);
    EnableTicks(db, s, m.id, ctx);
  }

  /** A created monitor that is disabled and enabled ticks again exactly when its interval is at least a second. */
  lemma TogglingKeepsTicker(workers: int, m: Monitor, created: Service.Context, off: Service.Context, on: Service.Context)
    requires m.enabled && m.interval > 0 && m.timeout > 0
    requires created.fails == {} && off.fails == {} && on.fails == {}
    ensures var r := Lifecycle(EMPTY, CreateOp(m, m.id, true, created));
      var q := Lifecycle(r.0, ToggleOp(m.id, false, off));
      var t := Lifecycle(q.0, ToggleOp(m.id, true, on));
      var s := Observe(Observe(Observe(Spec.Start(Spec.Init(workers)), r.1), q.1), t.1);
      && Mirrors(t.0, s) && m.id in s.entries && (s.entries[m.id].ticker.Some? <==> m.interval >= SECOND)
  {
    DisabledAfterCreation(workers, m, created, off);
    var r := Lifecycle(EMPTY, CreateOp(m, m.id, true, created));
    var q := Lifecycle(r.0, ToggleOp(m.id, false, off));
    EnabledAgain(q.0, Observe(Observe(Spec.Start(Spec.Init(workers)), r.1), q.1), m, on);
  }
}
