/** The scheduler mirrors the monitors table also while requests run side by side: with one request of a monitor
    at a time and no faults, every monitor with nothing outstanding is registered as its row says. */
module ReportMirror {
  import opened Common
  import opened Monitors
  import opened Store
  import opened World
  import opened Projection
  import opened Requests
  import opened Reports
  import opened LateReports
  import opened SchedulerSafety
  import Service = ServiceSpec
  import Mirror
  import Spec = SchedulerSpec

  /** No written change of the monitor waits to be reported. */
  ghost predicate Quiet(v: Registry, id: Id) {
    && (forall k | k in v.requests && Target(v.requests[k].op) == id :: !Wrote(v.requests[k]))
    && (forall c | c in v.reports :: c.monitor.id != id)
  }

  /** The monitor is registered exactly if its row is live, and then as the row says. */
  ghost predicate InStep(v: Registry, id: Id) {
    && (id in v.scheduler.entries <==> Live(v.db.monitors, id))
    && (id in v.scheduler.entries ==> Stored(v.scheduler.entries[id].monitor) == v.db.monitors[id])
  }

  /** The monitor has a state row, or its creation is about to write it. */
  ghost predicate Born(v: Registry, id: Id) {
    id in v.db.states
    || exists k :: k in v.requests && v.requests[k].op.CreateOp? && v.requests[k].op.id == id && v.requests[k].phase.Writing?
  }

  /** Every monitor row has a state row, unless its creation is about to write it; rows are as read back. */
  ghost predicate Furnished(v: Registry) {
    forall id | id in v.db.monitors ::
      && Stored(v.db.monitors[id]) == v.db.monitors[id]
      && Born(v, id)
  }

  ghost predicate Synced(v: Registry) {
    && Current(v) && Furnished(v) && (forall k | k in v.requests :: FailsOf(v.requests[k].op) == {})
    && (forall id | Quiet(v, id) :: InStep(v, id))
    && v.scheduler.started && !v.scheduler.stopped && Mirror.TickersMatch(v.scheduler)
  }

  /** The service runs on: no stop, no cancellation of its context, no ticker cancelled but by its own registration,
      and no fault. */
  ghost predicate Serves(t: Turn) {
    && (t.Background? ==> !t.action.DoStop? && !t.action.DoCancel? && !t.action.DoCancelTicker?)
    && (t.Ask? ==> FailsOf(t.op) == {})
  }

  lemma BackgroundEntries(s: Spec.State, a: Spec.Action)
    requires Spec.Enabled(s, a) && InBackground(a) && !a.DoStop? && !a.DoCancelTicker? && s.started && !s.stopped
    ensures var t := Spec.Step(s, a);
      && t.started && !t.stopped && t.tickers == s.tickers && t.entries.Keys == s.entries.Keys
      && forall id | id in s.entries ::
           t.entries[id].monitor == s.entries[id].monitor && t.entries[id].ticker == s.entries[id].ticker
  {}

  lemma BackgroundTickers(s: Spec.State, a: Spec.Action)
    requires Spec.Enabled(s, a) && InBackground(a) && !a.DoStop? && !a.DoCancelTicker? && s.started && !s.stopped
    requires Mirror.TickersMatch(s)
    ensures Mirror.TickersMatch(Spec.Step(s, a))
  {
    BackgroundEntries(s, a);
    var t := Spec.Step(s, a);
    assert forall id, k: nat :: Mirror.Owns(t, id, k) <==> Mirror.Owns(s, id, k);
  }

  // ---- a request's call ----

  /** Without faults a request that has written its row ends with a report of it. */
  lemma WroteReports(db: Tables, r: Request)
    requires Founded(db.monitors, r) && Wrote(r) && FailsOf(r.op) == {}
    requires r.phase.Reading? ==> Target(r.op) in db.states
    ensures var next := Step(db, r).1;
      if next.phase.Returned? then exists c :: c in Reported(next) && c.monitor.id == Target(r.op) else Wrote(next)
  {
    if r.phase.Logging? {
      var next := Step(db, r).1;
      assert Reported(next) == [Service.Change(KindOf(r.op), r.phase.monitor)];
      assert Reported(next)[0] in Reported(next);
    }
  }

  /** A request that has not written its row, and does not now, leaves all monitor rows alone. */
  lemma NotYetWritten(db: Tables, r: Request)
    requires Founded(db.monitors, r) && !Wrote(r) && !Wrote(Step(db, r).1)
    ensures Step(db, r).0.monitors == db.monitors
  {}

  lemma TargetHasState(v: Registry, k: nat)
    requires Synced(v) && k in v.requests && v.requests[k].phase.Reading?
    ensures Target(v.requests[k].op) in v.db.states
  {
    var r := v.requests[k];
    assert r.op.ToggleOp? && Founded(v.db.monitors, r);
  }

  /** A call after the row was written leaves something outstanding. */
  lemma StaysOutstanding(v: Registry, k: nat)
    requires Synced(v) && CanTurn(v, Proceed(k)) && Wrote(v.requests[k])
    ensures !Quiet(TurnTo(v, Proceed(k)), Target(v.requests[k].op))
  {
    var r, t := v.requests[k], TurnTo(v, Proceed(k));
    var next := Step(v.db, r).1;
    if r.phase.Reading? { TargetHasState(v, k); }
    WroteReports(v.db, r);
    if next.phase.Returned? {
      var c :| c in Reported(next) && c.monitor.id == Target(r.op);
      assert c in t.reports;
    } else {
      assert t.requests[k] == next && next.op == r.op;
    }
  }

  lemma BecomesOutstanding(v: Registry, k: nat)
    requires CanTurn(v, Proceed(k)) && Wrote(Step(v.db, v.requests[k]).1)
    ensures !Quiet(TurnTo(v, Proceed(k)), Target(v.requests[k].op))
  {
    var t, next := TurnTo(v, Proceed(k)), Step(v.db, v.requests[k]).1;
    assert t.requests[k] == next && next.op == v.requests[k].op;
  }

  lemma WasQuiet(v: Registry, k: nat, id: Id)
    requires CanTurn(v, Proceed(k)) && Quiet(TurnTo(v, Proceed(k)), id)
    requires Target(v.requests[k].op) == id ==> !Wrote(v.requests[k])
    ensures Quiet(v, id)
  {
    var t := TurnTo(v, Proceed(k));
    assert forall c | c in v.reports :: c in t.reports;
    forall j | j in v.requests && Target(v.requests[j].op) == id ensures !Wrote(v.requests[j]) {
      if j != k { assert t.requests[j] == v.requests[j]; }
    }
  }

  lemma ProceedInStep(v: Registry, k: nat, id: Id)
    requires Synced(v) && CanTurn(v, Proceed(k)) && Quiet(TurnTo(v, Proceed(k)), id)
    ensures InStep(TurnTo(v, Proceed(k)), id)
  {
    var r := v.requests[k];
    if Wrote(r) { StaysOutstanding(v, k); }
    if Wrote(Step(v.db, r).1) { BecomesOutstanding(v, k); }
    WasQuiet(v, k, id);
    if Target(r.op) == id {
      NotYetWritten(v.db, r);
    } else {
      StepStaysUpright(v.db, r);
    }
  }

  lemma OtherStaysBorn(v: Registry, k: nat, id: Id)
    requires CanTurn(v, Proceed(k)) && Born(v, id) && id != Target(v.requests[k].op)
    requires v.db.states.Keys <= TurnTo(v, Proceed(k)).db.states.Keys
    ensures Born(TurnTo(v, Proceed(k)), id)
  {
    var t := TurnTo(v, Proceed(k));
    if id !in v.db.states {
      var j :| j in v.requests && v.requests[j].op.CreateOp? && v.requests[j].op.id == id && v.requests[j].phase.Writing?;
      assert j != k && t.requests[j] == v.requests[j];
    }
  }

  lemma ProceedComplete(v: Registry, k: nat)
    requires Synced(v) && CanTurn(v, Proceed(k))
    ensures Furnished(TurnTo(v, Proceed(k)))
  {
    var r, t := v.requests[k], TurnTo(v, Proceed(k));
    StepStaysUpright(v.db, r);
    StepRows(v.db, r);
    forall id | id in t.db.monitors ensures Born(t, id) {
      if id == Target(r.op) {
        TargetComplete(v, k);
      } else {
        OtherStaysBorn(v, k, id);
      }
    }
  }

  /** Where the state row is missing, the step is the one of the creation that writes it. */
  lemma StateWritten(v: Registry, k: nat, id: Id)
    requires Synced(v) && CanTurn(v, Proceed(k)) && id == Target(v.requests[k].op)
    requires id in v.db.monitors && id !in v.db.states
    ensures id in TurnTo(v, Proceed(k)).db.states
  {
    assert Founded(v.db.monitors, v.requests[k]);
    var j :| j in v.requests && v.requests[j].op.CreateOp? && v.requests[j].op.id == id && v.requests[j].phase.Writing?;
    assert j == k && Service.WriteState !in FailsOf(v.requests[k].op);
  }

  lemma TargetComplete(v: Registry, k: nat)
    requires Synced(v) && CanTurn(v, Proceed(k))
    ensures var t, id := TurnTo(v, Proceed(k)), Target(v.requests[k].op);
      id in t.db.monitors ==> Born(t, id)
  {
    var r, t := v.requests[k], TurnTo(v, Proceed(k));
    var id := Target(r.op);
    assert Founded(v.db.monitors, r);
    if id in v.db.monitors && id !in v.db.states {
      StateWritten(v, k, id);
    } else if id !in v.db.monitors && id in t.db.monitors {
      assert r.op.CreateOp? && t.requests[k] == Step(v.db, r).1 && t.requests[k].phase.Writing?;
    }
  }

  lemma StepRows(db: Tables, r: Request)
    requires Founded(db.monitors, r) && forall id | id in db.monitors :: Stored(db.monitors[id]) == db.monitors[id]
    ensures var t := Step(db, r).0;
      && (forall id | id in t.monitors :: Stored(t.monitors[id]) == t.monitors[id]) && db.states.Keys <= t.states.Keys
  {
    assert forall m: Monitor :: Stored(Stored(m)) == Stored(m);
    if r.phase.Storing? { StoresRows(db, r.op, r.phase.monitor); }
  }

  lemma StoresRows(db: Tables, op: Op, m: Monitor)
    requires !op.CheckOp? && forall id | id in db.monitors :: Stored(db.monitors[id]) == db.monitors[id]
    ensures var t := Stores(db, op, m).0;
      && (forall id | id in t.monitors :: Stored(t.monitors[id]) == t.monitors[id]) && t.states == db.states
  {
    StoredAgain(m);
    var t := Stores(db, op, m).0;
    match op
    case CreateOp(_, _, _, _) => assert t.monitors == db.monitors || t.monitors == db.monitors[m.id := Stored(m)];
    case DeleteOp(id, _) =>
    case _ =>
  }

  lemma StoredAgain(m: Monitor)
    ensures Stored(Stored(m)) == Stored(m) && Stored(Stored(m).(deleted := false)) == Stored(m).(deleted := false)
  {}

  lemma ProceedSynced(v: Registry, k: nat)
    requires Synced(v) && CanTurn(v, Proceed(k))
    ensures Synced(TurnTo(v, Proceed(k)))
  {
    var t := TurnTo(v, Proceed(k));
    ProceedStaysCurrent(v, k);
    ProceedComplete(v, k);
    assert Step(v.db, v.requests[k]).1.op == v.requests[k].op;
    forall id | Quiet(t, id) ensures InStep(t, id) { ProceedInStep(v, k, id); }
  }

  // ---- the other turns ----

  lemma AskComplete(v: Registry, k: nat, op: Op)
    requires Furnished(v) && CanTurn(v, Ask(k, op))
    ensures Furnished(TurnTo(v, Ask(k, op)))
  {
    var t := TurnTo(v, Ask(k, op));
    assert forall j | j in v.requests :: t.requests[j] == v.requests[j];
  }

  lemma AskInStep(v: Registry, k: nat, op: Op, id: Id)
    requires CanTurn(v, Ask(k, op)) && Quiet(TurnTo(v, Ask(k, op)), id)
    ensures Quiet(v, id)
  {
    var t := TurnTo(v, Ask(k, op));
    assert forall j | j in v.requests :: t.requests[j] == v.requests[j];
  }

  lemma AskSynced(v: Registry, k: nat, op: Op)
    requires Synced(v) && CanTurn(v, Ask(k, op)) && Orderly(v, Ask(k, op)) && FailsOf(op) == {}
    ensures Synced(TurnTo(v, Ask(k, op)))
  {
    var t := TurnTo(v, Ask(k, op));
    AskStaysCurrent(v, k, op);
    AskComplete(v, k, op);
    forall id | Quiet(t, id) ensures InStep(t, id) {
      AskInStep(v, k, op, id);
      assert InStep(v, id);
    }
  }

  lemma OwnReportInStep(v: Registry, i: nat)
    requires Current(v) && i < |v.reports|
    ensures InStep(TurnTo(v, Report(i)), v.reports[i].monitor.id)
  {
    assert v.reports[i] in v.reports;
  }

  lemma OtherReportInStep(v: Registry, i: nat, id: Id)
    requires i < |v.reports| && v.reports[i].monitor.id != id && InStep(v, id)
    ensures InStep(TurnTo(v, Report(i)), id)
  {}

  lemma WasQuietToo(v: Registry, i: nat, id: Id)
    requires i < |v.reports| && v.reports[i].monitor.id != id && Quiet(TurnTo(v, Report(i)), id)
    ensures Quiet(v, id)
  {
    var t := TurnTo(v, Report(i));
    forall d | d in v.reports ensures d.monitor.id != id {
      var j :| 0 <= j < |v.reports| && v.reports[j] == d;
      if j < i { assert t.reports[j] == d; } else if j > i { assert t.reports[j - 1] == d; }
    }
  }

  lemma ReportInStep(v: Registry, i: nat, id: Id)
    requires Synced(v) && CanTurn(v, Report(i)) && Quiet(TurnTo(v, Report(i)), id)
    ensures InStep(TurnTo(v, Report(i)), id)
  {
    if v.reports[i].monitor.id == id {
      OwnReportInStep(v, i);
    } else {
      WasQuietToo(v, i, id);
      OtherReportInStep(v, i, id);
    }
  }

  lemma ReportSynced(v: Registry, i: nat)
    requires Synced(v) && CanTurn(v, Report(i))
    ensures Synced(TurnTo(v, Report(i)))
  {
    OrderlyIsClean(v, Report(i));
    Mirror.ObserveTickers(v.scheduler, Service.Notified(v.reports[i]));
    forall id | Quiet(TurnTo(v, Report(i)), id) ensures InStep(TurnTo(v, Report(i)), id) { ReportInStep(v, i, id); }
  }

  lemma LoadInStep(v: Registry, id: Id, jd: Id)
    requires OwnIds(v.db.monitors) && Furnished(v) && CanTurn(v, Load(id)) && InStep(v, jd)
    ensures InStep(TurnTo(v, Load(id)), jd)
  {}

  lemma LoadSynced(v: Registry, id: Id)
    requires Synced(v) && CanTurn(v, Load(id))
    ensures Synced(TurnTo(v, Load(id)))
  {
    OrderlyIsClean(v, Load(id));
    Mirror.UpsertTickers(v.scheduler, v.db.monitors[id]);
    var t := TurnTo(v, Load(id));
    assert t.requests == v.requests && t.reports == v.reports && t.db == v.db;
    forall jd | Quiet(t, jd) ensures InStep(t, jd) {
      assert Quiet(v, jd);
      LoadInStep(v, id, jd);
    }
  }

  /** If neither requests nor reports nor the registrations change, nothing gets out of step. */
  lemma StaysInStep(v: Registry, t: Registry)
    requires forall id | Quiet(v, id) :: InStep(v, id)
    requires t.db.monitors == v.db.monitors && t.requests == v.requests && t.reports == v.reports
    requires t.scheduler.entries.Keys == v.scheduler.entries.Keys
    requires forall id | id in v.scheduler.entries :: t.scheduler.entries[id].monitor == v.scheduler.entries[id].monitor
    ensures forall id | Quiet(t, id) :: InStep(t, id)
  {
    forall id | Quiet(t, id) ensures InStep(t, id) { assert Quiet(v, id) && InStep(v, id); }
  }

  lemma BackgroundSynced(v: Registry, a: Spec.Action)
    requires Synced(v) && CanTurn(v, Background(a)) && Serves(Background(a))
    ensures Synced(TurnTo(v, Background(a)))
  {
    OrderlyIsClean(v, Background(a));
    BackgroundTickers(v.scheduler, a);
    BackgroundEntries(v.scheduler, a);
    StaysInStep(v, TurnTo(v, Background(a)));
  }

  lemma ElsewhereComplete(v: Registry, db: Tables)
    requires Furnished(v) && CanTurn(v, Elsewhere(db))
    ensures Furnished(TurnTo(v, Elsewhere(db)))
  {
    var t := TurnTo(v, Elsewhere(db));
    assert t.requests == v.requests;
  }

  lemma ElsewhereSynced(v: Registry, db: Tables)
    requires Synced(v) && CanTurn(v, Elsewhere(db))
    ensures Synced(TurnTo(v, Elsewhere(db)))
  {
    OrderlyIsClean(v, Elsewhere(db));
    ElsewhereComplete(v, db);
    StaysInStep(v, TurnTo(v, Elsewhere(db)));
  }

  lemma TurnSynced(v: Registry, t: Turn)
    requires Synced(v) && CanTurn(v, t) && Orderly(v, t) && Serves(t)
    ensures Synced(TurnTo(v, t))
  {
    match t
    case Background(a) => BackgroundSynced(v, a);
    case Ask(k, op) => AskSynced(v, k, op);
    case Proceed(k) => ProceedSynced(v, k);
    case Report(i) => ReportSynced(v, i);
    case Load(id) => LoadSynced(v, id);
    case Elsewhere(db) => ElsewhereSynced(v, db);
  }

  /** Whatever requests run side by side, one of a monitor at a time and without faults, in whatever order they
      report: a monitor with nothing outstanding is registered exactly if its row is live and as its row says,
      and the uncancelled tickers are one for each eligible entry. */
  lemma {:induction false} OrderlyMirrors(v: Registry, turns: seq<Turn>)
    requires Synced(v) && CanTurns(v, turns) && AlwaysOrderly(v, turns) && forall t | t in turns :: Serves(t)
    ensures Synced(RunTurns(v, turns))
    decreases |turns|
  {
    if turns == [] {
    } else {
      assert turns[0] in turns;
      TurnSynced(v, turns[0]);
      OrderlyMirrors(TurnTo(v, turns[0]), turns[1..]);
    }
  }

  // ---- startup ----

  lemma {:induction false} LoadKeeps(s: Spec.State, rows: seq<Monitor>)
    requires Inv(s) && forall id :: Spec.InFlight(s, id) == 0
    ensures Inv(Mirror.Load(s, rows)) && forall id :: Spec.InFlight(Mirror.Load(s, rows), id) == 0
    decreases |rows|
  {
    if rows == [] {
    } else {
      UpsertKeeps(s, rows[0]);
      forall id ensures Spec.InFlight(Spec.Upsert(s, rows[0]), id) == 0 {
        assert Spec.InFlight(Spec.Upsert(s, rows[0]), id) == Spec.InFlight(s, id);
      }
      LoadKeeps(Spec.Upsert(s, rows[0]), rows[1..]);
    }
  }

  lemma NothingInFlight(workers: int, id: Id)
    ensures Spec.InFlight(Spec.Start(Spec.Init(workers)), id) == 0 && Inv(Spec.Start(Spec.Init(workers)))
  {
    SchedulerSafety.StepKeeps(Spec.Init(workers), Spec.DoStart);
    StartFlight(Spec.Init(workers), id);
  }

  /** The service as it starts, its table loaded. */
  ghost function Loaded(workers: int, db: Tables, rows: seq<Monitor>): Registry {
    Registry(db, Mirror.Load(Spec.Start(Spec.Init(workers)), rows), map[], [])
  }

  lemma LoadedIsSynced(workers: int, db: Tables, rows: seq<Monitor>)
    requires forall i, j | 0 <= i < j < |rows| :: rows[i].id != rows[j].id
    requires forall i | 0 <= i < |rows| :: Live(db.monitors, rows[i].id) && rows[i] == db.monitors[rows[i].id]
    requires forall id | Live(db.monitors, id) :: exists i | 0 <= i < |rows| :: rows[i].id == id
    requires Keyed(db) && forall id | id in db.monitors :: Stored(db.monitors[id]) == db.monitors[id] && id in db.states
    ensures Synced(Loaded(workers, db, rows))
  {
    var v := Loaded(workers, db, rows);
    Mirror.StartupMirrors(workers, db, rows);
    LoadedIsCurrent(workers, db, rows);
    forall id | Quiet(v, id) ensures InStep(v, id) {}
  }

  lemma LoadedIsCurrent(workers: int, db: Tables, rows: seq<Monitor>)
    requires Keyed(db) && Mirror.Mirrors(db, Loaded(workers, db, rows).scheduler)
    ensures Current(Loaded(workers, db, rows))
  {
    var s := Spec.Start(Spec.Init(workers));
    forall id ensures Spec.InFlight(s, id) == 0 { NothingInFlight(workers, id); }
    NothingInFlight(workers, "");
    LoadKeeps(s, rows);
    assert Registered(db.monitors, Mirror.Load(s, rows));
  }

  /** The service from its startup on. With nothing outstanding at all the scheduler mirrors the table. */
  lemma ServiceMirrors(workers: int, db: Tables, rows: seq<Monitor>, turns: seq<Turn>, id: Id)
    requires forall i, j | 0 <= i < j < |rows| :: rows[i].id != rows[j].id
    requires forall i | 0 <= i < |rows| :: Live(db.monitors, rows[i].id) && rows[i] == db.monitors[rows[i].id]
    requires forall id | Live(db.monitors, id) :: exists i | 0 <= i < |rows| :: rows[i].id == id
    requires Keyed(db) && forall id | id in db.monitors :: Stored(db.monitors[id]) == db.monitors[id] && id in db.states
    requires CanTurns(Loaded(workers, db, rows), turns) && AlwaysOrderly(Loaded(workers, db, rows), turns)
    requires forall t | t in turns :: Serves(t)
    ensures var v := RunTurns(Loaded(workers, db, rows), turns);
      && (Quiet(v, id) ==> InStep(v, id))
      && (v.requests == map[] && v.reports == [] ==> Mirror.Mirrors(v.db, v.scheduler))
  {
    LoadedIsSynced(workers, db, rows);
    OrderlyMirrors(Loaded(workers, db, rows), turns);
    AllQuiet(RunTurns(Loaded(workers, db, rows), turns));
  }

  lemma AllQuiet(v: Registry)
    requires Synced(v)
    ensures v.requests == map[] && v.reports == [] ==> Mirror.Mirrors(v.db, v.scheduler)
  {
    if v.requests == map[] && v.reports == [] {
      forall id ensures id in v.scheduler.entries <==> Live(v.db.monitors, id) { assert Quiet(v, id) && InStep(v, id); }
      forall id | id in v.scheduler.entries ensures Stored(v.scheduler.entries[id].monitor) == v.db.monitors[id] {
        assert Quiet(v, id) && InStep(v, id);
      }
    }
  }
}
