/** The scheduler under the monitor service. A request writes its rows call by call and then reports the change to
    the scheduler; requests run side by side, so a report may come late and overtake others. The no-overlap rule
    holds exactly as long as no late report registers an id whose old job is still in flight. */
module Reports {
  import opened Common
  import opened Monitors
  import opened Store
  import opened World
  import opened Requests
  import opened SchedulerSafety
  import opened Projection
  import Mirror
  import Spec = SchedulerSpec
  import Service = ServiceSpec

  /** `requests` are the lifecycle operations in progress, `reports` the changes written but not yet reported. */
  datatype Registry = Registry(
    db: Tables, scheduler: Spec.State, requests: map<nat, Request>, reports: seq<Service.Change>)

  /** `Background` is a step of the scheduler's own goroutines; `Ask` the start of a request and `Proceed` a store
      call of one; `Report` the report of a change; `Load` the registration of a row at startup; `Elsewhere` any
      write to other tables than that of the monitors, like those of a check. */
  datatype Turn =
    | Background(action: Spec.Action)
    | Ask(k: nat, op: Op)
    | Proceed(k: nat)
    | Report(i: nat)
    | Load(id: Id)
    | Elsewhere(db: Tables)

  /** The steps of the scheduler's own goroutines, and of start and stop up to its last statement. */
  predicate InBackground(a: Spec.Action) { !a.DoUpsert? && !a.DoForget? && !a.DoStopped? }

  /** The request is under way. */
  predicate Active(r: Request) { Formed(r) && !r.phase.Returned? }

  ghost predicate CanTurn(v: Registry, t: Turn) {
    match t
    case Background(a) => Spec.Enabled(v.scheduler, a) && InBackground(a)
    case Ask(k, op) => k !in v.requests && !op.CheckOp?
    case Proceed(k) => k in v.requests && Active(v.requests[k])
    case Report(i) => i < |v.reports|
    case Load(id) => Live(v.db.monitors, id)
    case Elsewhere(db) => db.monitors == v.db.monitors && v.db.states.Keys <= db.states.Keys <= db.monitors.Keys
  }

  /** The change that a request has to report when it returns. */
  function Reported(r: Request): seq<Service.Change> {
    if r.phase.Returned? && r.phase.outcome.Notified? then [r.phase.outcome.change] else []
  }

  function TurnTo(v: Registry, t: Turn): Registry
    requires CanTurn(v, t)
  {
    match t
    case Background(a) => v.(scheduler := Spec.Step(v.scheduler, a))
    case Ask(k, op) => v.(requests := v.requests[k := Enter(op)])
    case Proceed(k) =>
      var next := Step(v.db, v.requests[k]);
      v.(db := next.0, reports := v.reports + Reported(next.1),
         requests := if next.1.phase.Returned? then v.requests - {k} else v.requests[k := next.1])
    case Report(i) =>
      v.(scheduler := Mirror.ObserveChange(v.scheduler, v.reports[i]), reports := v.reports[..i] + v.reports[i + 1..])
    case Load(id) => v.(scheduler := Spec.Upsert(v.scheduler, v.db.monitors[id]))
    case Elsewhere(db) => v.(db := db)
  }

  ghost predicate CanTurns(v: Registry, turns: seq<Turn>)
    decreases |turns|
  {
    turns == [] || (CanTurn(v, turns[0]) && CanTurns(TurnTo(v, turns[0]), turns[1..]))
  }

  ghost function RunTurns(v: Registry, turns: seq<Turn>): Registry
    requires CanTurns(v, turns)
    decreases |turns|
  {
    if turns == [] then v else RunTurns(TurnTo(v, turns[0]), turns[1..])
  }

  /** A new scheduler on the tables of an earlier life of the service, or on empty ones. */
  function Startup(workers: int, db: Tables): Registry { Registry(db, Spec.Init(workers), map[], []) }

  // ---- what every run keeps ----

  /** Registered ids and ids with a job in flight have rows; an unregistered one of the latter is deleted. */
  ghost predicate Registered(monitors: map<Id, Monitor>, s: Spec.State) {
    && (forall id | id in s.entries :: id in monitors)
    && (forall id | Spec.InFlight(s, id) > 0 :: id in monitors && (id in s.entries || monitors[id].deleted))
  }

  /** The change is of a monitor with a row, and a removal of one whose row is deleted. */
  ghost predicate Backed(monitors: map<Id, Monitor>, c: Service.Change) {
    c.monitor.id in monitors && (c.kind == Deleted ==> monitors[c.monitor.id].deleted)
  }

  /** A request that has written its row has it, and a deletion has deleted it. */
  ghost predicate Founded(monitors: map<Id, Monitor>, r: Request) {
    && Active(r)
    && (r.phase.Reading? ==> r.op.ToggleOp?) && (r.phase.Writing? ==> r.op.ToggleOp? || r.op.CreateOp?)
    && (r.phase.Reading? || r.phase.Writing? || r.phase.Logging? ==> Target(r.op) in monitors)
    && (r.phase.Logging? && r.op.DeleteOp? ==> monitors[Target(r.op)].deleted)
  }

  ghost predicate Sane(v: Registry) {
    && Inv(v.scheduler) && Keyed(v.db) && Registered(v.db.monitors, v.scheduler)
    && (forall k | k in v.requests :: Founded(v.db.monitors, v.requests[k]))
    && (forall c | c in v.reports :: Backed(v.db.monitors, c))
  }

  /** The turn does not register an unregistered id that has a job in flight. */
  ghost predicate Clean(v: Registry, t: Turn)
    requires CanTurn(v, t)
  {
    t.Report? && v.reports[t.i].kind != Deleted ==> Spec.CleanAdd(v.scheduler, Spec.DoUpsert(v.reports[t.i].monitor))
  }

  lemma AbortFlight(s: Spec.State, i: nat, id: Id)
    requires i < |s.fires|
    ensures Spec.InFlight(Spec.Abort(s, i), id) <= Spec.InFlight(s, id)
  {
    DropFireFlight(Spec.Unlock(s, s.fires[i]), i, id);
  }

  lemma BackgroundFlight(s: Spec.State, a: Spec.Action, id: Id)
    requires Inv(s) && Spec.Enabled(s, a) && InBackground(a)
    ensures Spec.InFlight(Spec.Step(s, a), id) > Spec.InFlight(s, id) ==> id in s.entries
  {
    match a
    case DoStart => StartFlight(s, id);
    case DoFire(jd, manual) => FireFlight(s, jd, manual, id);
    case DoPoll(i) => if s.done { AbortFlight(s, i, id); } else { PollFlight(s, i, id); }
    case DoSend(i) => SendFlight(s, i, id);
    case DoAbort(i) => AbortFlight(s, i, id);
    case DoTake(w) => TakeFlight(s, w, id);
    case DoFinish(w) => FinishFlight(s, w, id);
    case DoExit(w) => ExitFlight(s, w, id);
    case _ =>
  }

  lemma BackgroundIds(s: Spec.State, a: Spec.Action)
    requires Spec.Enabled(s, a) && InBackground(a)
    ensures Spec.Step(s, a).entries.Keys == s.entries.Keys
  {}

  lemma BackgroundKeeps(monitors: map<Id, Monitor>, s: Spec.State, a: Spec.Action)
    requires Inv(s) && Registered(monitors, s) && Spec.Enabled(s, a) && InBackground(a)
    ensures Inv(Spec.Step(s, a)) && Registered(monitors, Spec.Step(s, a))
  {
    SchedulerSafety.StepKeeps(s, a);
    BackgroundIds(s, a);
    forall id | Spec.InFlight(Spec.Step(s, a), id) > 0
      ensures id in monitors && (id in Spec.Step(s, a).entries || monitors[id].deleted) {
      BackgroundFlight(s, a, id);
      assert id in s.entries || Spec.InFlight(s, id) > 0;
    }
  }

  lemma UpsertRegisters(monitors: map<Id, Monitor>, s: Spec.State, m: Monitor)
    requires Inv(s) && Registered(monitors, s) && m.id in monitors && Spec.CleanAdd(s, Spec.DoUpsert(m))
    ensures Inv(Spec.Upsert(s, m)) && Registered(monitors, Spec.Upsert(s, m))
  {
    UpsertKeeps(s, m);
    var t := Spec.Upsert(s, m);
    assert t.entries.Keys == s.entries.Keys + {m.id};
    forall id | Spec.InFlight(t, id) > 0 ensures id in monitors && (id in t.entries || monitors[id].deleted) {
      assert Spec.InFlight(s, id) == Spec.InFlight(t, id);
    }
  }

  lemma CancelKeeps(monitors: map<Id, Monitor>, s: Spec.State, ticker: Option<nat>)
    requires Inv(s) && Registered(monitors, s)
    ensures Inv(Spec.CancelTicker(s, ticker)) && Registered(monitors, Spec.CancelTicker(s, ticker))
  {
    if ticker.Some? {
      BackgroundKeeps(monitors, s, Spec.DoCancelTicker(ticker.value));
    }
  }

  lemma RemoveRegisters(monitors: map<Id, Monitor>, s: Spec.State, id: Id)
    requires Inv(s) && Registered(monitors, s) && id in monitors && monitors[id].deleted
    ensures var t := Spec.CancelTicker(Spec.Forget(s, id), Spec.PriorTicker(s, id));
      Inv(t) && Registered(monitors, t)
  {
    SchedulerSafety.StepKeeps(s, Spec.DoForget(id));
    var u := Spec.Forget(s, id);
    forall jd | Spec.InFlight(u, jd) > 0 ensures jd in monitors && (jd in u.entries || monitors[jd].deleted) {
      assert Spec.InFlight(s, jd) == Spec.InFlight(u, jd);
    }
    CancelKeeps(monitors, u, Spec.PriorTicker(s, id));
  }

  /** Rows are never removed, and deleted rows never come back; a request that goes on stays founded, and one
      that ends with a change has a founded one. */
  lemma StepKeepsRows(db: Tables, r: Request)
    requires Keyed(db) && Founded(db.monitors, r)
    ensures var next := Step(db, r);
      && Keyed(next.0)
      && (forall id | id in db.monitors :: id in next.0.monitors && (db.monitors[id].deleted ==> next.0.monitors[id].deleted))
      && (!next.1.phase.Returned? ==> Founded(next.0.monitors, next.1))
      && (forall c | c in Reported(next.1) :: Backed(next.0.monitors, c))
  {
    StaysFormed(db, r);
    match r.phase
    case Storing(m) => StoresKeepRows(db, r);
    case _ =>
  }

  lemma StoresKeepRows(db: Tables, r: Request)
    requires Keyed(db) && Founded(db.monitors, r) && r.phase.Storing?
    ensures var next := Step(db, r);
      && Keyed(next.0)
      && (forall id | id in db.monitors :: id in next.0.monitors && (db.monitors[id].deleted ==> next.0.monitors[id].deleted))
      && (!next.1.phase.Returned? ==> Founded(next.0.monitors, next.1))
      && Reported(next.1) == []
  {}

  /** A written row was live or did not exist, so no id with a job in flight loses its registration by it. */
  lemma StepRegisters(db: Tables, s: Spec.State, r: Request)
    requires Keyed(db) && Founded(db.monitors, r) && Registered(db.monitors, s)
    ensures Registered(Step(db, r).0.monitors, s)
  {
    StepKeepsRows(db, r);
  }

  lemma ProceedKeeps(v: Registry, k: nat)
    requires Sane(v) && CanTurn(v, Proceed(k))
    ensures Sane(TurnTo(v, Proceed(k)))
  {
    var t := TurnTo(v, Proceed(k));
    StepKeepsRows(v.db, v.requests[k]);
    StepRegisters(v.db, v.scheduler, v.requests[k]);
    assert forall j | j in t.requests && j != k :: Founded(t.db.monitors, v.requests[j]);
    forall c | c in t.reports ensures Backed(t.db.monitors, c) {
      assert c in v.reports || c in Reported(Step(v.db, v.requests[k]).1);
    }
  }

  lemma TurnKeeps(v: Registry, t: Turn)
    requires Sane(v) && CanTurn(v, t) && Clean(v, t)
    ensures Sane(TurnTo(v, t))
  {
    var monitors, s := v.db.monitors, v.scheduler;
    match t
    case Background(a) => BackgroundKeeps(monitors, s, a);
    case Ask(_, _) =>
    case Proceed(k) => ProceedKeeps(v, k);
    case Report(i) =>
      var r := v.reports[i];
      assert r in v.reports;
      if r.kind == Deleted { RemoveRegisters(monitors, s, r.monitor.id); } else { UpsertRegisters(monitors, s, r.monitor); }
    case Load(id) => UpsertRegisters(monitors, s, monitors[id]);
    case Elsewhere(_) =>
  }

  lemma StartupIsSane(workers: int, db: Tables)
    requires Keyed(db)
    ensures Sane(Startup(workers, db))
  {}

  // ---- the exact condition ----

  /** No monitor has two jobs in flight, nor would have after one more trigger. */
  ghost predicate Safe(s: Spec.State) { NoOverlap(s) && forall id :: TriggerSafe(s, id) }

  ghost predicate AlwaysSafe(v: Registry, turns: seq<Turn>)
    requires CanTurns(v, turns)
    decreases |turns|
  {
    Safe(v.scheduler) && (turns == [] || AlwaysSafe(TurnTo(v, turns[0]), turns[1..]))
  }

  ghost predicate AlwaysClean(v: Registry, turns: seq<Turn>)
    requires CanTurns(v, turns)
    decreases |turns|
  {
    turns == [] || (Clean(v, turns[0]) && AlwaysClean(TurnTo(v, turns[0]), turns[1..]))
  }

  lemma {:induction false} RunSafeExactly(v: Registry, turns: seq<Turn>)
    requires Sane(v) && CanTurns(v, turns)
    ensures AlwaysSafe(v, turns) <==> AlwaysClean(v, turns)
    decreases |turns|
  {
    forall id ensures TriggerSafe(v.scheduler, id) { InvIsTriggerSafe(v.scheduler, id); }
    if turns == [] {
    } else if Clean(v, turns[0]) {
      TurnKeeps(v, turns[0]);
      RunSafeExactly(TurnTo(v, turns[0]), turns[1..]);
    } else {
      AddSafeExactly(v.scheduler, v.reports[turns[0].i].monitor);
    }
  }

  /** Over every run of the service, with any operations, any faults and reports in any order: a state with two
      jobs of one monitor in flight, or one trigger away from it, is met exactly when some report registers
      an unregistered id that has a job in flight. */
  lemma OverlapsExactly(workers: int, db: Tables, turns: seq<Turn>)
    requires Keyed(db) && CanTurns(Startup(workers, db), turns)
    ensures AlwaysSafe(Startup(workers, db), turns) <==> AlwaysClean(Startup(workers, db), turns)
  {
    RunSafeExactly(Startup(workers, db), turns);
  }

  // ---- the guard of the callers ----

  /** Nothing of the monitor is in progress or waiting to be reported. */
  ghost predicate Unasked(v: Registry, id: Id) {
    && (forall k | k in v.requests :: Target(v.requests[k].op) != id)
    && (forall c | c in v.reports :: c.monitor.id != id)
  }

  /** Requests of one monitor do not overlap: none starts before the last one's change is reported. */
  ghost predicate Orderly(v: Registry, t: Turn) { t.Ask? ==> Unasked(v, Target(t.op)) }

  ghost predicate AlwaysOrderly(v: Registry, turns: seq<Turn>)
    requires CanTurns(v, turns)
    decreases |turns|
  {
    turns == [] || (Orderly(v, turns[0]) && AlwaysOrderly(TurnTo(v, turns[0]), turns[1..]))
  }

  /** The rows that a request has read or written are as it has left them. */
  ghost predicate Upright(db: Tables, r: Request) {
    match r.phase
    case Storing(m) => !m.deleted && (r.op.CreateOp? || Live(db.monitors, m.id))
    case Logging(m) => !r.op.DeleteOp? ==> Live(db.monitors, m.id) && db.monitors[m.id] == Stored(m)
    case Reading(m) => Live(db.monitors, m.id) && db.monitors[m.id] == Stored(m)
    case Writing(m, _) => Live(db.monitors, m.id) && db.monitors[m.id] == Stored(m)
    case _ => true
  }

  ghost predicate Apart(v: Registry) {
    && (forall j, k | j in v.requests && k in v.requests && j != k :: Target(v.requests[j].op) != Target(v.requests[k].op))
    && (forall k, c | k in v.requests && c in v.reports :: Target(v.requests[k].op) != c.monitor.id)
    && (forall i, j | 0 <= i < j < |v.reports| :: v.reports[i].monitor.id != v.reports[j].monitor.id)
  }

  /** Requests and reports are of different monitors, and their rows are as they have left them. */
  ghost predicate Current(v: Registry) {
    && Sane(v) && Apart(v)
    && (forall k | k in v.requests :: Upright(v.db, v.requests[k]))
    && (forall c | c in v.reports && c.kind != Deleted ::
          Live(v.db.monitors, c.monitor.id) && v.db.monitors[c.monitor.id] == Stored(c.monitor))
  }

  lemma StepStaysUpright(db: Tables, r: Request)
    requires Keyed(db) && Founded(db.monitors, r) && Upright(db, r)
    ensures var next := Step(db, r);
      && (!next.1.phase.Returned? ==> Upright(next.0, next.1))
      && (forall c | c in Reported(next.1) :: c.monitor.id == Target(r.op)
            && (c.kind != Deleted ==> Live(next.0.monitors, c.monitor.id) && next.0.monitors[c.monitor.id] == Stored(c.monitor)))
      && (forall id | id != Target(r.op) ::
            (id in next.0.monitors <==> id in db.monitors) && (id in db.monitors ==> next.0.monitors[id] == db.monitors[id]))
  {
    StaysFormed(db, r);
  }

  lemma ProceedStaysApart(v: Registry, k: nat)
    requires Sane(v) && Apart(v) && CanTurn(v, Proceed(k))
    requires forall c | c in Reported(Step(v.db, v.requests[k]).1) :: c.monitor.id == Target(v.requests[k].op)
    ensures Apart(TurnTo(v, Proceed(k)))
  {
    StaysFormed(v.db, v.requests[k]);
    var added, t := Reported(Step(v.db, v.requests[k]).1), TurnTo(v, Proceed(k));
    assert forall j | j in t.requests :: j in v.requests && t.requests[j].op == v.requests[j].op;
    assert forall i | 0 <= i < |v.reports| :: v.reports[i] in v.reports && t.reports[i] == v.reports[i];
    assert added != [] ==> t.reports[|v.reports|] == added[0] && added[0] in added && k !in t.requests;
    forall j, c | j in t.requests && c in t.reports ensures Target(t.requests[j].op) != c.monitor.id {
      assert c in v.reports || c in added;
    }
  }

  lemma ProceedStaysCurrent(v: Registry, k: nat)
    requires Current(v) && CanTurn(v, Proceed(k))
    ensures Current(TurnTo(v, Proceed(k)))
  {
    var r, t := v.requests[k], TurnTo(v, Proceed(k));
    ProceedKeeps(v, k);
    StepStaysUpright(v.db, r);
    ProceedStaysApart(v, k);
    forall j | j in t.requests ensures Upright(t.db, t.requests[j]) {
      if j != k { UprightElsewhere(v.db, t.db, v.requests[j], Target(r.op)); }
    }
    forall c | c in t.reports && c.kind != Deleted
      ensures Live(t.db.monitors, c.monitor.id) && t.db.monitors[c.monitor.id] == Stored(c.monitor) {
      assert c in v.reports || c in Reported(Step(v.db, r).1);
    }
  }

  lemma UprightElsewhere(a: Tables, b: Tables, r: Request, id: Id)
    requires Formed(r) && Upright(a, r) && Target(r.op) != id
    requires forall jd | jd != id ::
      && (jd in b.monitors <==> jd in a.monitors)
      && (jd in a.monitors ==> b.monitors[jd] == a.monitors[jd])
    ensures Upright(b, r)
  {}

  lemma AskStaysCurrent(v: Registry, k: nat, op: Op)
    requires Current(v) && CanTurn(v, Ask(k, op)) && Orderly(v, Ask(k, op))
    ensures Current(TurnTo(v, Ask(k, op)))
  {
    TurnKeeps(v, Ask(k, op));
  }

  lemma ReportStaysApart(v: Registry, i: nat)
    requires Apart(v) && i < |v.reports|
    ensures Apart(TurnTo(v, Report(i)))
  {
    var t := TurnTo(v, Report(i));
    assert forall j | 0 <= j < |t.reports| :: t.reports[j] == v.reports[if j < i then j else j + 1];
    assert forall c | c in t.reports :: c in v.reports;
  }

  /** Under the guard no report is late, so every turn is clean. */
  lemma OrderlyIsClean(v: Registry, t: Turn)
    requires Current(v) && CanTurn(v, t) && Orderly(v, t)
    ensures Clean(v, t) && Current(TurnTo(v, t))
  {
    if t.Report? { assert v.reports[t.i] in v.reports; }
    TurnKeeps(v, t);
    match t
    case Ask(k, op) => AskStaysCurrent(v, k, op);
    case Proceed(k) => ProceedStaysCurrent(v, k);
    case Report(i) => ReportStaysApart(v, i);
    case _ =>
  }

  lemma {:induction false} OrderlyRunKeeps(v: Registry, turns: seq<Turn>)
    requires Current(v) && CanTurns(v, turns) && AlwaysOrderly(v, turns)
    ensures Current(RunTurns(v, turns)) && AlwaysClean(v, turns)
    decreases |turns|
  {
    if turns == [] {
    } else {
      OrderlyIsClean(v, turns[0]);
      OrderlyRunKeeps(TurnTo(v, turns[0]), turns[1..]);
    }
  }

  /** The no-overlap rule of the service: if requests of one monitor do not overlap, then whatever operations run,
      whatever fails in them, in whatever order reports of different monitors come, and however the goroutines
      interleave until Stop returns, no monitor has two jobs in flight, and before shutdown a registered
      monitor's flag is set exactly while it has one. */
  lemma OrderlyNeverOverlaps(workers: int, db: Tables, turns: seq<Turn>, id: Id)
    requires Keyed(db) && CanTurns(Startup(workers, db), turns) && AlwaysOrderly(Startup(workers, db), turns)
    ensures AlwaysSafe(Startup(workers, db), turns)
    ensures var s := RunTurns(Startup(workers, db), turns).scheduler;
      && Spec.InFlight(s, id) <= 1
      && (id in s.entries && !s.done ==> (s.entries[id].running <==> Spec.InFlight(s, id) == 1))
  {
    StartupIsSane(workers, db);
    OrderlyRunKeeps(Startup(workers, db), turns);
    OverlapsExactly(workers, db, turns);
  }
}
