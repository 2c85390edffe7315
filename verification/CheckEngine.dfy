/** Scheduler, monitor service and pipeline together: a worker that takes a job runs the pipeline's store calls
    and returns when the run is over, while requests write rows call by call and report to the scheduler. The
    no-overlap rule is what keeps the checks of one monitor apart. */
module CheckEngine {
  import opened Common
  import opened Store
  import opened CheckRun
  import opened World
  import opened Projection
  import opened Commute
  import opened Interleaving
  import opened Serial
  import Spec = SchedulerSpec
  import Safety = SchedulerSafety
  import Reports
  import Ledger
  import Notifications
  import SoleCheck
  import Pairing
  import Balance
  import Service = ServiceSpec

  datatype System = System(scheduler: Spec.State, engine: Engine, reports: seq<Service.Change>)
  {
    /** The system as the scheduler and the service see it. */
    function Registry(): Reports.Registry { Reports.Registry(engine.db, scheduler, engine.requests, reports) }
  }

  /** A step of a scheduler goroutine other than a worker's, a worker taking a job, a store call of its check, a
      worker whose check is over, the start of a request, a store call of one, its report, and the loading of a
      row at startup. */
  datatype Move =
    | Background(action: Spec.Action)
    | Dispatch(w: nat, probe: Probe)
    | Call(w: nat)
    | Return(w: nat)
    | Ask(k: nat, op: Op)
    | Proceed(k: nat)
    | Report(i: nat)
    | Load(id: Id)

  /** What a move is for the checks and requests. */
  function ActOf(v: System, m: Move): Option<Act> {
    match m
    case Dispatch(w, p) => if v.scheduler.jobs == [] then None else Some(StartCheck(w, v.scheduler.jobs[0].monitor.id, p))
    case Call(w) => Some(NextCall(w))
    case Ask(k, op) => Some(StartRequest(k, op))
    case Proceed(k) => Some(NextStep(k))
    case _ => None
  }

  ghost predicate EngineCan(v: System, m: Move) { ActOf(v, m).Some? ==> Allowed(v.engine, ActOf(v, m).value) }

  ghost function EngineTo(v: System, m: Move): Engine
    requires EngineCan(v, m)
  {
    if ActOf(v, m).Some? then Do(v.engine, ActOf(v, m).value) else v.engine
  }

  /** What a move is for the scheduler and the service. */
  ghost function TurnOf(v: System, m: Move): Reports.Turn
    requires EngineCan(v, m)
  {
    match m
    case Background(a) => Reports.Background(a)
    case Dispatch(w, _) => Reports.Background(Spec.DoTake(w))
    case Call(w) => Reports.Elsewhere(EngineTo(v, m).db)
    case Return(w) => Reports.Background(Spec.DoFinish(w))
    case Ask(k, op) => Reports.Ask(k, op)
    case Proceed(k) => Reports.Proceed(k)
    case Report(i) => Reports.Report(i)
    case Load(id) => Reports.Load(id)
  }

  /** Jobs are taken and finished only together with the check they carry. */
  ghost predicate CanMove(v: System, m: Move) {
    && EngineCan(v, m) && Reports.CanTurn(v.Registry(), TurnOf(v, m))
    && (m.Background? ==> !m.action.DoTake? && !m.action.DoFinish?)
    && (m.Return? ==> m.w !in v.engine.runs)
  }

  ghost function MoveTo(v: System, m: Move): System
    requires CanMove(v, m)
  {
    var r := Reports.TurnTo(v.Registry(), TurnOf(v, m));
    System(r.scheduler, EngineTo(v, m), r.reports)
  }

  /** A check in progress is that of its worker's job. */
  ghost predicate Coupled(v: System) {
    Tracked(v.engine) && forall w | w in v.engine.runs ::
      w < |v.scheduler.workers| && v.scheduler.workers[w].Busy?
      && v.scheduler.workers[w].job.monitor.id == v.engine.runs[w].monitor
  }

  /** Both sides write the same rows. */
  lemma SameTables(v: System, m: Move)
    requires CanMove(v, m)
    ensures MoveTo(v, m).Registry() == Reports.TurnTo(v.Registry(), TurnOf(v, m))
  {}

  /** An idle worker is free to start a check, with any fresh incident id. */
  lemma IdleMayStart(v: System, w: nat, p: Probe)
    requires Coupled(v) && Spec.Enabled(v.scheduler, Spec.DoTake(w)) && FreshId(v.engine, p.incidentId)
    ensures CanMove(v, Dispatch(w, p))
  {}

  lemma BackgroundBusy(s: Spec.State, a: Spec.Action, w: nat)
    requires Safety.Shape(s) && Spec.Enabled(s, a) && Reports.InBackground(a) && w < |s.workers| && s.workers[w].Busy?
    requires !(a == Spec.DoFinish(w))
    ensures w < |Spec.Step(s, a).workers| && Spec.Step(s, a).workers[w] == s.workers[w]
  {}

  lemma MoveCouples(v: System, m: Move)
    requires Coupled(v) && Safety.Shape(v.scheduler) && CanMove(v, m)
    ensures Coupled(MoveTo(v, m))
  {
    if ActOf(v, m).Some? { DoTracked(v.engine, ActOf(v, m).value); }
    var t := MoveTo(v, m);
    forall w | w in t.engine.runs
      ensures w < |t.scheduler.workers| && t.scheduler.workers[w].Busy?
        && t.scheduler.workers[w].job.monitor.id == t.engine.runs[w].monitor {
      RunStaysCoupled(v, m, w);
    }
  }

  /** The run in progress at a worker, if it was there before, has kept its monitor. */
  lemma SameMonitor(e: Engine, a: Act, w: nat)
    requires Filed(e) && Allowed(e, a) && w in Do(e, a).runs && !(a.StartCheck? && a.w == w)
    ensures w in e.runs && Do(e, a).runs[w].monitor == e.runs[w].monitor
  {
    if a == NextCall(w) { CallKeepsRows(e.db, e.runs[w]); }
  }

  /** A worker stays busy with its job unless its check returns in this move. */
  lemma WorkerStays(v: System, m: Move, w: nat)
    requires Safety.Shape(v.scheduler) && CanMove(v, m) && w < |v.scheduler.workers| && v.scheduler.workers[w].Busy?
    requires m != Return(w)
    ensures var t := MoveTo(v, m).scheduler.workers; w < |t| && t[w] == v.scheduler.workers[w]
  {
    var turn := TurnOf(v, m);
    if turn.Background? {
      BackgroundBusy(v.scheduler, turn.action, w);
    } else {
      assert MoveTo(v, m).scheduler.workers == v.scheduler.workers;
    }
  }

  lemma RunStaysCoupled(v: System, m: Move, w: nat)
    requires Coupled(v) && Safety.Shape(v.scheduler) && CanMove(v, m) && w in MoveTo(v, m).engine.runs
    ensures var t := MoveTo(v, m);
      w < |t.scheduler.workers| && t.scheduler.workers[w].Busy?
      && t.scheduler.workers[w].job.monitor.id == t.engine.runs[w].monitor
  {
    if !m.Dispatch? || m.w != w {
      if ActOf(v, m).Some? { SameMonitor(v.engine, ActOf(v, m).value, w); }
      WorkerStays(v, m, w);
    }
  }

  // ---- runs ----

  ghost predicate CanRun(v: System, moves: seq<Move>)
    decreases |moves|
  {
    moves == [] || (CanMove(v, moves[0]) && CanRun(MoveTo(v, moves[0]), moves[1..]))
  }

  ghost function RunMoves(v: System, moves: seq<Move>): System
    requires CanRun(v, moves)
    decreases |moves|
  {
    if moves == [] then v else RunMoves(MoveTo(v, moves[0]), moves[1..])
  }

  /** The acts of checks and requests in a run. */
  ghost function ActsOf(v: System, moves: seq<Move>): seq<Act>
    requires CanRun(v, moves)
    decreases |moves|
  {
    if moves == [] then [] else
    (if ActOf(v, moves[0]).Some? then [ActOf(v, moves[0]).value] else []) + ActsOf(MoveTo(v, moves[0]), moves[1..])
  }

  lemma {:induction false} RunIsSchedule(v: System, moves: seq<Move>)
    requires CanRun(v, moves)
    ensures Schedule(v.engine, ActsOf(v, moves)) && RunMoves(v, moves).engine == After(v.engine, ActsOf(v, moves))
    decreases |moves|
  {
    if moves == [] {
    } else {
      var t := MoveTo(v, moves[0]);
      RunIsSchedule(t, moves[1..]);
      if ActOf(v, moves[0]).Some? {
        assert ActsOf(v, moves)[1..] == ActsOf(t, moves[1..]);
      } else {
        assert ActsOf(v, moves) == ActsOf(t, moves[1..]);
      }
    }
  }

  // ---- clean runs ----

  /** No report registers an unregistered id that has a job in flight. */
  ghost predicate Clean(v: System, moves: seq<Move>)
    requires CanRun(v, moves)
    decreases |moves|
  {
    moves == [] || (Reports.Clean(v.Registry(), TurnOf(v, moves[0])) && Clean(MoveTo(v, moves[0]), moves[1..]))
  }

  ghost predicate Sound(v: System) { Coupled(v) && Reports.Sane(v.Registry()) }

  lemma MoveIsSound(v: System, m: Move)
    requires Sound(v) && CanMove(v, m) && Reports.Clean(v.Registry(), TurnOf(v, m))
    ensures Sound(MoveTo(v, m))
  {
    SameTables(v, m);
    Reports.TurnKeeps(v.Registry(), TurnOf(v, m));
    MoveCouples(v, m);
  }

  lemma {:induction false} RunIsSound(v: System, moves: seq<Move>)
    requires Sound(v) && CanRun(v, moves) && Clean(v, moves)
    ensures Sound(RunMoves(v, moves))
    decreases |moves|
  {
    if moves == [] {
    } else {
      MoveIsSound(v, moves[0]);
      RunIsSound(MoveTo(v, moves[0]), moves[1..]);
    }
  }

  /** A queued job's monitor has no check in progress: this is where the no-overlap rule is used. */
  lemma QueuedIsIdle(v: System, w: nat)
    requires Sound(v) && v.scheduler.jobs != []
    ensures !Checking(v.engine, w, v.scheduler.jobs[0].monitor.id)
  {
    var s := v.scheduler;
    var id := s.jobs[0].monitor.id;
    CountHas(s.jobs, 0, Spec.JobOf(id));
    assert Spec.InFlight(s, id) <= 1;
    if Checking(v.engine, w, id) { CountHas(s.workers, w, Spec.BusyWith(id)); }
  }

  /** What may still disturb a monitor's checks and requests: the callers of the service. */
  ghost predicate Crosses(e: Engine, a: Act, id: Id, l: Level) {
    || AsksTwice(e, a, id) || TogglesInside(e, a, id)
    || (!l.Health? && ChecksInside(e, a, id)) || (l.Log? && ReadsUnlogged(e, a, id))
  }

  ghost predicate Uncrossed(v: System, moves: seq<Move>, id: Id, l: Level)
    requires CanRun(v, moves)
    decreases |moves|
  {
    moves == [] ||
    (&& (ActOf(v, moves[0]).Some? ==> !Crosses(v.engine, ActOf(v, moves[0]).value, id, l))
     && Uncrossed(MoveTo(v, moves[0]), moves[1..], id, l))
  }

  /** In a sound state a check starts only if none of its monitor is in progress. */
  lemma NeverTwice(v: System, m: Move, id: Id)
    requires Sound(v) && CanMove(v, m) && ActOf(v, m).Some?
    ensures !ChecksTwice(v.engine, ActOf(v, m).value, id)
  {
    if m.Dispatch? {
      forall w ensures !Checking(v.engine, w, v.scheduler.jobs[0].monitor.id) { QueuedIsIdle(v, w); }
    }
  }

  lemma ActIsApart(v: System, m: Move, id: Id, l: Level)
    requires Sound(v) && CanMove(v, m) && ActOf(v, m).Some? && !Crosses(v.engine, ActOf(v, m).value, id, l)
    ensures !Disturbs(v.engine, ActOf(v, m).value, id, l)
  {
    NeverTwice(v, m, id);
  }

  lemma UndisturbedCons(e: Engine, a: Act, rest: seq<Act>, id: Id, l: Level)
    requires Allowed(e, a) && !Disturbs(e, a, id, l) && Schedule(Do(e, a), rest) && Undisturbed(Do(e, a), rest, id, l)
    ensures Schedule(e, [a] + rest) && Undisturbed(e, [a] + rest, id, l)
  {
    assert ([a] + rest)[1..] == rest;
  }

  lemma {:induction false} CleanIsUndisturbed(v: System, moves: seq<Move>, id: Id, l: Level)
    requires Sound(v) && CanRun(v, moves) && Clean(v, moves) && Uncrossed(v, moves, id, l)
    ensures Schedule(v.engine, ActsOf(v, moves)) && Undisturbed(v.engine, ActsOf(v, moves), id, l)
    decreases |moves|
  {
    if moves == [] {
    } else {
      var m, t := moves[0], MoveTo(v, moves[0]);
      var rest := ActsOf(t, moves[1..]);
      MoveIsSound(v, m);
      CleanIsUndisturbed(t, moves[1..], id, l);
      if ActOf(v, m).Some? {
        ActIsApart(v, m, id, l);
        UndisturbedCons(v.engine, ActOf(v, m).value, rest, id, l);
      } else {
        assert ActsOf(v, moves) == [] + rest == rest;
      }
    }
  }

  // ---- the results ----

  /** A new scheduler on the tables of an earlier life of the service, or on empty ones. */
  function Boot(workers: int, db: Tables): (v: System)
    ensures Calm(db) ==> Sound(v) && Reports.Current(v.Registry())
  {
    System(Spec.Init(workers), Engine(db, map[], map[]), [])
  }

  /** The checks and lifecycle operations of `id` in the run, each where it takes place. */
  ghost function OwnOps(v: System, moves: seq<Move>, id: Id): seq<Op>
    requires CanRun(v, moves)
  {
    RunIsSchedule(v, moves);
    OpsOf(v.engine, ActsOf(v, moves), id)
  }

  /** The no-overlap rule of the whole engine, as long as reports are clean. */
  lemma ServiceNeverOverlaps(workers: int, db: Tables, moves: seq<Move>, id: Id)
    requires Calm(db) && CanRun(Boot(workers, db), moves) && Clean(Boot(workers, db), moves)
    ensures var s := RunMoves(Boot(workers, db), moves).scheduler;
      && Spec.InFlight(s, id) <= 1
      && (id in s.entries && !s.done ==> (s.entries[id].running <==> Spec.InFlight(s, id) == 1))
  {
    RunIsSound(Boot(workers, db), moves);
  }

  lemma SerialisesFrom(v: System, moves: seq<Move>, id: Id, l: Level)
    requires Sound(v) && v.engine == Engine(v.engine.db, map[], map[]) && Calm(v.engine.db)
    requires CanRun(v, moves) && Clean(v, moves) && Uncrossed(v, moves, id, l)
    requires Quiescent(RunMoves(v, moves).engine, id)
    ensures Alike(Project(RunMoves(v, moves).engine.db, id), Run(Project(v.engine.db, id), OwnOps(v, moves, id)), l)
  {
    RunIsSchedule(v, moves);
    CleanIsUndisturbed(v, moves, id, l);
    ChecksSerialise(v.engine.db, ActsOf(v, moves), id, l);
  }

  /** The whole engine, from its start: scheduler, queue, workers and pipeline, with checks and requests of all
      monitors interleaved call by call, and any calls failing. Once nothing of a monitor is in progress, its rows
      are those of its own checks and lifecycle operations run one at a time. Checks of one monitor need not be
      kept apart by hypothesis: the scheduler does that while reports are clean. */
  lemma EngineSerialises(workers: int, db: Tables, moves: seq<Move>, id: Id, l: Level)
    requires Calm(db) && CanRun(Boot(workers, db), moves) && Clean(Boot(workers, db), moves)
    requires Uncrossed(Boot(workers, db), moves, id, l) && Quiescent(RunMoves(Boot(workers, db), moves).engine, id)
    ensures Alike(Project(RunMoves(Boot(workers, db), moves).engine.db, id),
                  Run(Project(db, id), OwnOps(Boot(workers, db), moves, id)), l)
  {
    SerialisesFrom(Boot(workers, db), moves, id, l);
  }

  lemma LedgerFrom(v: System, moves: seq<Move>, id: Id)
    requires Sound(v) && v.engine == START && CanRun(v, moves) && Clean(v, moves) && Uncrossed(v, moves, id, Health)
    requires Quiescent(RunMoves(v, moves).engine, id)
    ensures var db, ops := RunMoves(v, moves).engine.db, OwnOps(v, moves, id);
      OpenCount(db, id) + Tally(EMPTY, ops, Ledger.LostResolve(id))
      == Ledger.IsDown(db, id) + Tally(EMPTY, ops, Ledger.LostOpen(id)) + Tally(EMPTY, ops, Ledger.ToggledDown(id))
  {
    RunIsSchedule(v, moves);
    CleanIsUndisturbed(v, moves, id, Health);
    Notifications.LedgerUnderInterleaving(ActsOf(v, moves), id);
  }

  /** The incident ledger of the whole engine: once nothing of a monitor is in progress, its open incidents are
      those that its own operations account for, whichever of their calls failed, checks inside toggles included. */
  lemma EngineKeepsTheLedger(workers: int, moves: seq<Move>, id: Id)
    requires CanRun(Boot(workers, EMPTY), moves) && Clean(Boot(workers, EMPTY), moves)
    requires Uncrossed(Boot(workers, EMPTY), moves, id, Health)
    requires Quiescent(RunMoves(Boot(workers, EMPTY), moves).engine, id)
    ensures var db, ops := RunMoves(Boot(workers, EMPTY), moves).engine.db, OwnOps(Boot(workers, EMPTY), moves, id);
      OpenCount(db, id) + Tally(EMPTY, ops, Ledger.LostResolve(id))
      == Ledger.IsDown(db, id) + Tally(EMPTY, ops, Ledger.LostOpen(id)) + Tally(EMPTY, ops, Ledger.ToggledDown(id))
  {
    LedgerFrom(Boot(workers, EMPTY), moves, id);
  }

  // ---- without a condition on requests ----

  ghost predicate AlwaysLoud(v: System, moves: seq<Move>, id: Id)
    requires CanRun(v, moves)
    decreases |moves|
  {
    moves == [] ||
    (&& (ActOf(v, moves[0]).Some? ==> Pairing.Loud(v.engine, ActOf(v, moves[0]).value, id))
     && AlwaysLoud(MoveTo(v, moves[0]), moves[1..], id))
  }

  lemma OneAtATimeCons(e: Engine, a: Act, rest: seq<Act>, id: Id)
    requires Allowed(e, a) && Schedule(Do(e, a), rest) && !ChecksTwice(e, a, id) && SoleCheck.OneAtATime(Do(e, a), rest, id)
    ensures Schedule(e, [a] + rest) && SoleCheck.OneAtATime(e, [a] + rest, id)
  {
    assert ([a] + rest)[1..] == rest;
  }

  /** While reports are clean the scheduler keeps the checks of a monitor one at a time. */
  lemma {:induction false} CleanIsOneAtATime(v: System, moves: seq<Move>, id: Id)
    requires Sound(v) && CanRun(v, moves) && Clean(v, moves)
    ensures Schedule(v.engine, ActsOf(v, moves)) && SoleCheck.OneAtATime(v.engine, ActsOf(v, moves), id)
    decreases |moves|
  {
    if moves == [] {
    } else {
      var m, t := moves[0], MoveTo(v, moves[0]);
      var rest := ActsOf(t, moves[1..]);
      MoveIsSound(v, m);
      CleanIsOneAtATime(t, moves[1..], id);
      if ActOf(v, m).Some? {
        NeverTwice(v, m, id);
        OneAtATimeCons(v.engine, ActOf(v, m).value, rest, id);
      } else {
        assert ActsOf(v, moves) == [] + rest == rest;
      }
    }
  }

  lemma LoudCons(e: Engine, a: Act, rest: seq<Act>, id: Id)
    requires Allowed(e, a) && Schedule(Do(e, a), rest) && Pairing.Loud(e, a, id) && Pairing.AlwaysLoud(Do(e, a), rest, id)
    ensures Schedule(e, [a] + rest) && Pairing.AlwaysLoud(e, [a] + rest, id)
  {
    assert ([a] + rest)[1..] == rest;
  }

  lemma {:induction false} LoudActs(v: System, moves: seq<Move>, id: Id)
    requires CanRun(v, moves) && AlwaysLoud(v, moves, id)
    ensures Schedule(v.engine, ActsOf(v, moves)) && Pairing.AlwaysLoud(v.engine, ActsOf(v, moves), id)
    decreases |moves|
  {
    if moves == [] {
    } else {
      var m, t := moves[0], MoveTo(v, moves[0]);
      var rest := ActsOf(t, moves[1..]);
      LoudActs(t, moves[1..], id);
      if ActOf(v, m).Some? {
        LoudCons(v.engine, ActOf(v, m).value, rest, id);
      } else {
        assert ActsOf(v, moves) == [] + rest == rest;
      }
    }
  }

  /** The pairing of recoveries in the whole engine, at every point of a run with clean reports: its checks notify,
      meet no fault and start later one than the other; requests do as they like. */
  lemma EnginePairs(workers: int, moves: seq<Move>, id: Id)
    requires CanRun(Boot(workers, EMPTY), moves) && Clean(Boot(workers, EMPTY), moves)
    requires AlwaysLoud(Boot(workers, EMPTY), moves, id)
    ensures Pairing.Paired(Filter(RunMoves(Boot(workers, EMPTY), moves).engine.db.outbox, JobsFor(id)))
  {
    PairsFrom(Boot(workers, EMPTY), moves, id);
  }

  lemma PairsFrom(v: System, moves: seq<Move>, id: Id)
    requires Sound(v) && v.engine == START && CanRun(v, moves) && Clean(v, moves) && AlwaysLoud(v, moves, id)
    ensures Pairing.Paired(Filter(RunMoves(v, moves).engine.db.outbox, JobsFor(id)))
  {
    RunIsSchedule(v, moves);
    CleanIsOneAtATime(v, moves, id);
    LoudActs(v, moves, id);
    Pairing.RecoveriesArePaired(ActsOf(v, moves), id);
  }

  /** The incident ledger call by call in the whole engine, with clean reports and any requests. */
  lemma EngineBalances(v: System, moves: seq<Move>, id: Id)
    requires Sound(v) && v.engine == START && CanRun(v, moves) && Clean(v, moves)
    requires CheckOf(RunMoves(v, moves).engine, id) == None
    ensures Schedule(START, ActsOf(v, moves))
    ensures var db, acts := RunMoves(v, moves).engine.db, ActsOf(v, moves);
      OpenCount(db, id) + Balance.Steps(START, acts, Balance.ResolvesUnsaved(id))
        + Balance.Steps(START, acts, Balance.SavesAfterToggle(id))
      == Ledger.IsDown(db, id) + Balance.Steps(START, acts, Balance.OpensUnsaved(id))
        + Balance.Steps(START, acts, Balance.TogglesDown(id))
  {
    RunIsSchedule(v, moves);
    CleanIsOneAtATime(v, moves, id);
    Balance.LedgerOfCalls(ActsOf(v, moves), id);
  }

  // ---- the guard of the callers ----

  /** Requests of one monitor do not overlap: none starts before the last one's change is reported. */
  ghost predicate OrderlyRun(v: System, moves: seq<Move>)
    requires CanRun(v, moves)
    decreases |moves|
  {
    moves == [] || (Reports.Orderly(v.Registry(), TurnOf(v, moves[0])) && OrderlyRun(MoveTo(v, moves[0]), moves[1..]))
  }

  ghost predicate NeverAsksTwice(v: System, moves: seq<Move>, id: Id)
    requires CanRun(v, moves)
    decreases |moves|
  {
    moves == [] ||
    (&& (ActOf(v, moves[0]).Some? ==> !AsksTwice(v.engine, ActOf(v, moves[0]).value, id))
     && NeverAsksTwice(MoveTo(v, moves[0]), moves[1..], id))
  }

  lemma OrderlyMove(v: System, m: Move, id: Id)
    requires Reports.Current(v.Registry()) && CanMove(v, m) && Reports.Orderly(v.Registry(), TurnOf(v, m))
    ensures Reports.Clean(v.Registry(), TurnOf(v, m)) && Reports.Current(MoveTo(v, m).Registry())
    ensures ActOf(v, m).Some? ==> !AsksTwice(v.engine, ActOf(v, m).value, id)
  {
    SameTables(v, m);
    Reports.OrderlyIsClean(v.Registry(), TurnOf(v, m));
  }

  /** Under the guard reports are clean and requests of a monitor keep apart: of the conditions above only the two
      on toggles and checks remain. */
  lemma {:induction false} OrderlyRunsAreClean(v: System, moves: seq<Move>, id: Id)
    requires Reports.Current(v.Registry()) && CanRun(v, moves) && OrderlyRun(v, moves)
    ensures Clean(v, moves) && NeverAsksTwice(v, moves, id)
    decreases |moves|
  {
    if moves == [] {
    } else {
      OrderlyMove(v, moves[0], id);
      OrderlyRunsAreClean(MoveTo(v, moves[0]), moves[1..], id);
    }
  }
}
