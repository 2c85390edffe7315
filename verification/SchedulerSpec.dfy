/** The scheduler of checks as a state machine whose steps are the critical sections and
    channel operations of the source's goroutines.

    A call of `fire` is split where it gives up the mutex: `FireLock` takes the running flag,
    `Poll` is the first select, `Send` and `Abort` are the two arms of the blocking one.
    A worker iteration is `Take` followed, once the check has returned, by `Finish`. */
module SchedulerSpec {
  import opened Common
  import opened Monitors

  predicate ShouldSchedule(m: Monitor) { m.enabled && !m.deleted && m.interval > 0 }

  /** `gen` stands for the identity of the entry object: an upsert installs a new object. */
  datatype Entry = Entry(gen: nat, monitor: Monitor, running: bool, ticker: Option<nat>)

  datatype Job = Job(monitor: Monitor, manual: bool)

  /** A call of `fire` that holds the running flag of entry object `gen` but has not sent its job. */
  datatype Fire = Fire(gen: nat, job: Job, polled: bool)

  datatype Worker = Idle | Busy(job: Job) | Exited

  datatype Ticker = Ticker(id: Id, interval: int, cancelled: bool)

  /** `done` is the cancellation of the scheduler's context; `size` the number of workers. */
  datatype State = State(
    size: nat, entries: map<Id, Entry>, fires: seq<Fire>, jobs: seq<Job>, workers: seq<Worker>,
    tickers: seq<Ticker>, gens: nat, started: bool, stopped: bool, done: bool)
  {
    function Capacity(): nat { 2 * size }
  }

  function Init(workers: int): State {
    State(if workers < 1 then 1 else workers, map[], [], [], [], [], 0, false, false, false)
  }

  // ---- steps ----

  function Start(s: State): State {
    if s.started then s else s.(started := true, workers := seq(s.size, _ => Idle))
  }

  function Cancelled(ts: seq<Ticker>, ticker: Option<nat>): seq<Ticker> {
    if ticker.Some? && ticker.value < |ts|
    then ts[ticker.value := ts[ticker.value].(cancelled := true)]
    else ts
  }

  function CancelTicker(s: State, ticker: Option<nat>): State {
    s.(tickers := Cancelled(s.tickers, ticker))
  }

  function PriorTicker(s: State, id: Id): Option<nat> {
    if id in s.entries then s.entries[id].ticker else None
  }

  predicate PriorRunning(s: State, id: Id) { id in s.entries && s.entries[id].running }

  predicate Ticks(s: State, m: Monitor) { s.started && !s.stopped && ShouldSchedule(m) }

  function StartTicker(s: State, m: Monitor): State {
    if Ticks(s, m) then s.(tickers := s.tickers + [Ticker(m.id, m.interval, false)]) else s
  }

  function Install(s: State, m: Monitor, running: bool, ticker: Option<nat>): State {
    s.(entries := s.entries[m.id := Entry(s.gens, m, running, ticker)], gens := s.gens + 1)
  }

  /** Installs or replaces the entry of `m`; a replaced entry's running flag is carried over. */
  function Upsert(s: State, m: Monitor): State {
    var s1 := CancelTicker(s, PriorTicker(s, m.id));
    Install(StartTicker(s1, m), m, PriorRunning(s, m.id),
            if Ticks(s, m) then Some(|s1.tickers|) else None)
  }

  /** The critical section of Remove; the removed entry's ticker is cancelled after it. */
  function Forget(s: State, id: Id): State { s.(entries := s.entries - {id}) }

  predicate FireAccepts(s: State, id: Id, manual: bool) {
    && id in s.entries
    && (manual || ShouldSchedule(s.entries[id].monitor))
    && !s.entries[id].running
  }

  function FireLock(s: State, id: Id, manual: bool): State {
    if FireAccepts(s, id, manual) then
      var e := s.entries[id];
      s.(entries := s.entries[id := e.(running := true)],
         fires := s.fires + [Fire(e.gen, Job(e.monitor, manual), false)])
    else s
  }

  /** Stores false in the running flag of the entry object that the aborted call locked. */
  function Unlock(s: State, f: Fire): State {
    var id := f.job.monitor.id;
    if id in s.entries && s.entries[id].gen == f.gen
    then s.(entries := s.entries[id := s.entries[id].(running := false)])
    else s
  }

  function DropFire(s: State, i: nat): State
    requires i < |s.fires|
  {
    s.(fires := s.fires[..i] + s.fires[i + 1..])
  }

  function Abort(s: State, i: nat): State
    requires i < |s.fires|
  {
    DropFire(Unlock(s, s.fires[i]), i)
  }

  function Poll(s: State, i: nat): State
    requires i < |s.fires|
  {
    if s.done then Abort(s, i) else s.(fires := s.fires[i := s.fires[i].(polled := true)])
  }

  function Send(s: State, i: nat): State
    requires i < |s.fires|
  {
    DropFire(s, i).(jobs := s.jobs + [s.fires[i].job])
  }

  function Take(s: State, w: nat): State
    requires w < |s.workers| && s.jobs != []
  {
    s.(workers := s.workers[w := Busy(s.jobs[0])], jobs := s.jobs[1..])
  }

  /** clearRunning: the flag of whatever entry is now registered under the id is cleared. */
  function Clear(s: State, id: Id): State {
    if id in s.entries then s.(entries := s.entries[id := s.entries[id].(running := false)]) else s
  }

  function Finish(s: State, w: nat): State
    requires w < |s.workers| && s.workers[w].Busy?
  {
    Clear(s, s.workers[w].job.monitor.id).(workers := s.workers[w := Idle])
  }

  function Exit(s: State, w: nat): State
    requires w < |s.workers|
  {
    s.(workers := s.workers[w := Exited])
  }

  // ---- the transition system ----

  datatype Action =
    | DoStart
    | DoUpsert(monitor: Monitor)
    | DoForget(id: Id)
    | DoCancelTicker(ticker: nat)
    | DoFire(id: Id, manual: bool)
    | DoPoll(i: nat)
    | DoSend(i: nat)
    | DoAbort(i: nat)
    | DoTake(w: nat)
    | DoFinish(w: nat)
    | DoExit(w: nat)
    | DoCancel
    | DoStop
    | DoStopped

  predicate Enabled(s: State, a: Action) {
    match a
    case DoStart => true
    case DoUpsert(_) => true
    case DoForget(_) => true
    case DoCancelTicker(_) => true
    case DoFire(_, _) => s.started
    case DoPoll(i) => i < |s.fires| && !s.fires[i].polled
    case DoSend(i) => i < |s.fires| && s.fires[i].polled && |s.jobs| < s.Capacity()
    case DoAbort(i) => i < |s.fires| && s.fires[i].polled && s.done
    case DoTake(w) => w < |s.workers| && s.workers[w].Idle? && s.jobs != []
    case DoFinish(w) => w < |s.workers| && s.workers[w].Busy?
    case DoExit(w) => w < |s.workers| && s.workers[w].Idle? && s.done
    case DoCancel => s.started
    case DoStop => s.started && !s.stopped
    case DoStopped => s.stopped && (forall f | f in s.fires :: f.job.manual) && forall w | w in s.workers :: w.Exited?
  }

  function Step(s: State, a: Action): State
    requires Enabled(s, a)
  {
    match a
    case DoStart => Start(s)
    case DoUpsert(m) => Upsert(s, m)
    case DoForget(id) => Forget(s, id)
    case DoCancelTicker(t) => CancelTicker(s, Some(t))
    case DoFire(id, manual) => FireLock(s, id, manual)
    case DoPoll(i) => Poll(s, i)
    case DoSend(i) => Send(s, i)
    case DoAbort(i) => Abort(s, i)
    case DoTake(w) => Take(s, w)
    case DoFinish(w) => Finish(s, w)
    case DoExit(w) => Exit(s, w)
    case DoCancel => s.(done := true)
    case DoStop => s.(stopped := true, done := true)
    case DoStopped => s.(entries := map[])
  }

  ghost predicate Legal(s: State, acts: seq<Action>)
    decreases |acts|
  {
    acts == [] || (Enabled(s, acts[0]) && Legal(Step(s, acts[0]), acts[1..]))
  }

  ghost function Run(s: State, acts: seq<Action>): State
    requires Legal(s, acts)
    decreases |acts|
  {
    if acts == [] then s else Run(Step(s, acts[0]), acts[1..])
  }

  // ---- jobs in flight ----

  function FireOf(id: Id): Fire -> bool { (f: Fire) => f.job.monitor.id == id }
  function JobOf(id: Id): Job -> bool { (j: Job) => j.monitor.id == id }
  function BusyWith(id: Id): Worker -> bool { (w: Worker) => w.Busy? && w.job.monitor.id == id }

  /** Jobs of a monitor between the compare-and-swap and the send, queued, or executing. */
  ghost function InFlight(s: State, id: Id): nat {
    Count(s.fires, FireOf(id)) + Count(s.jobs, JobOf(id)) + Count(s.workers, BusyWith(id))
  }

  /** No id is registered afresh while a job of an earlier registration is in flight. */
  ghost predicate CleanAdd(s: State, a: Action) {
    a.DoUpsert? ==> a.monitor.id in s.entries || InFlight(s, a.monitor.id) == 0
  }

  ghost predicate CleanRun(s: State, acts: seq<Action>)
    requires Legal(s, acts)
    decreases |acts|
  {
    acts == [] || (CleanAdd(s, acts[0]) && CleanRun(Step(s, acts[0]), acts[1..]))
  }
}
