/** The no-overlap rule over every run of the scheduler, the exact condition it rests on,
    and the absence of wedged flags. */
module SchedulerSafety {
  import opened Common
  import opened Monitors
  import opened SchedulerSpec

  ghost predicate NoOverlap(s: State) {
    forall id :: InFlight(s, id) <= 1
  }

  /** A registered monitor with a job in flight has its running flag set. */
  ghost predicate Flagged(s: State) {
    forall id | id in s.entries :: InFlight(s, id) >= 1 ==> s.entries[id].running
  }

  /** Before shutdown a running flag is never left set without a job in flight. */
  ghost predicate NoWedge(s: State) {
    !s.done ==> forall id | id in s.entries :: s.entries[id].running ==> InFlight(s, id) >= 1
  }

  ghost predicate Shape(s: State) {
    && s.size >= 1
    && (forall id | id in s.entries :: s.entries[id].monitor.id == id)
    && |s.workers| == (if s.started then s.size else 0)
    && (!s.done ==> forall w | w in s.workers :: !w.Exited?)
    && |s.jobs| <= s.Capacity()
  }

  ghost predicate Inv(s: State) { Shape(s) && NoOverlap(s) && Flagged(s) && NoWedge(s) }

  // ---- what each step does to the jobs in flight ----

  lemma DropFireFlight(s: State, i: nat, id: Id)
    requires i < |s.fires|
    ensures InFlight(DropFire(s, i), id)
         == InFlight(s, id) - (if s.fires[i].job.monitor.id == id then 1 else 0)
  {
    CountRemove(s.fires, i, FireOf(id));
  }

  lemma SendFlight(s: State, i: nat, id: Id)
    requires i < |s.fires|
    ensures InFlight(Send(s, i), id) == InFlight(s, id)
  {
    DropFireFlight(s, i, id);
    CountAppend(s.jobs, s.fires[i].job, JobOf(id));
  }

  lemma TakeFlight(s: State, w: nat, id: Id)
    requires Enabled(s, DoTake(w))
    ensures InFlight(Take(s, w), id) == InFlight(s, id)
  {
    CountUpdate(s.workers, w, Busy(s.jobs[0]), BusyWith(id));
  }

  lemma FinishFlight(s: State, w: nat, id: Id)
    requires Enabled(s, DoFinish(w))
    ensures InFlight(Finish(s, w), id)
         == InFlight(s, id) - (if s.workers[w].job.monitor.id == id then 1 else 0)
  {
    CountUpdate(s.workers, w, Idle, BusyWith(id));
  }

  lemma FireFlight(s: State, id: Id, manual: bool, other: Id)
    requires Shape(s)
    ensures InFlight(FireLock(s, id, manual), other)
         == InFlight(s, other) + (if FireAccepts(s, id, manual) && id == other then 1 else 0)
  {
    if FireAccepts(s, id, manual) {
      var e := s.entries[id];
      CountAppend(s.fires, Fire(e.gen, Job(e.monitor, manual), false), FireOf(other));
    }
  }

  lemma PollFlight(s: State, i: nat, id: Id)
    requires i < |s.fires| && !s.done
    ensures InFlight(Poll(s, i), id) == InFlight(s, id)
  {
    CountUpdate(s.fires, i, s.fires[i].(polled := true), FireOf(id));
  }

  lemma ExitFlight(s: State, w: nat, id: Id)
    requires w < |s.workers| && !s.workers[w].Busy?
    ensures InFlight(Exit(s, w), id) == InFlight(s, id)
  {
    CountUpdate(s.workers, w, Exited, BusyWith(id));
  }

  lemma StartFlight(s: State, id: Id)
    requires Shape(s)
    ensures InFlight(Start(s), id) == InFlight(s, id)
  {
    CountZero(s.workers, BusyWith(id));
    CountZero(Start(s).workers, BusyWith(id));
  }

  // ---- every step keeps the invariant ----

  lemma FireKeeps(s: State, id: Id, manual: bool)
    requires Inv(s) && s.started
    ensures Inv(FireLock(s, id, manual))
  {
    forall other ensures InFlight(FireLock(s, id, manual), other)
                      == InFlight(s, other) + (if FireAccepts(s, id, manual) && id == other then 1 else 0) {
      FireFlight(s, id, manual, other);
    }
  }

  lemma AbortKeeps(s: State, i: nat)
    requires Inv(s) && i < |s.fires| && s.done
    ensures Inv(Abort(s, i))
  {
    var u := Unlock(s, s.fires[i]);
    forall id ensures InFlight(Abort(s, i), id)
                   == InFlight(s, id) - (if s.fires[i].job.monitor.id == id then 1 else 0) {
      DropFireFlight(u, i, id);
    }
  }

  lemma SendKeeps(s: State, i: nat)
    requires Inv(s) && Enabled(s, DoSend(i))
    ensures Inv(Send(s, i))
  {
    forall id ensures InFlight(Send(s, i), id) == InFlight(s, id) { SendFlight(s, i, id); }
  }

  lemma TakeKeeps(s: State, w: nat)
    requires Inv(s) && Enabled(s, DoTake(w))
    ensures Inv(Take(s, w))
  {
    forall id ensures InFlight(Take(s, w), id) == InFlight(s, id) { TakeFlight(s, w, id); }
  }

  lemma FinishKeeps(s: State, w: nat)
    requires Inv(s) && Enabled(s, DoFinish(w))
    ensures Inv(Finish(s, w))
  {
    forall id ensures InFlight(Finish(s, w), id)
                   == InFlight(s, id) - (if s.workers[w].job.monitor.id == id then 1 else 0) {
      FinishFlight(s, w, id);
    }
  }

  lemma UpsertKeeps(s: State, m: Monitor)
    requires Inv(s) && CleanAdd(s, DoUpsert(m))
    ensures Inv(Upsert(s, m))
  {
    forall id ensures InFlight(Upsert(s, m), id) == InFlight(s, id) {}
  }

  lemma StepKeeps(s: State, a: Action)
    requires Inv(s) && Enabled(s, a) && CleanAdd(s, a)
    ensures Inv(Step(s, a))
  {
    var t := Step(s, a);
    match a
    case DoStart => forall id ensures InFlight(t, id) == InFlight(s, id) { StartFlight(s, id); }
    case DoUpsert(m) => UpsertKeeps(s, m);
    case DoForget(_) => forall id ensures InFlight(t, id) == InFlight(s, id) {}
    case DoCancelTicker(_) => forall id ensures InFlight(t, id) == InFlight(s, id) {}
    case DoFire(id, manual) => FireKeeps(s, id, manual);
    case DoPoll(i) =>
      if s.done { AbortKeeps(s, i); }
      else { forall id ensures InFlight(t, id) == InFlight(s, id) { PollFlight(s, i, id); } }
    case DoSend(i) => SendKeeps(s, i);
    case DoAbort(i) => AbortKeeps(s, i);
    case DoTake(w) => TakeKeeps(s, w);
    case DoFinish(w) => FinishKeeps(s, w);
    case DoExit(w) => forall id ensures InFlight(t, id) == InFlight(s, id) { ExitFlight(s, w, id); }
    case DoCancel => forall id ensures InFlight(t, id) == InFlight(s, id) {}
    case DoStop => forall id ensures InFlight(t, id) == InFlight(s, id) {}
    case DoStopped => forall id ensures InFlight(t, id) == InFlight(s, id) {}
  }

  lemma {:induction false} RunKeeps(s: State, acts: seq<Action>)
    requires Inv(s) && Legal(s, acts) && CleanRun(s, acts)
    ensures Inv(Run(s, acts))
    decreases |acts|
  {
    if acts == [] {
    } else {
      StepKeeps(s, acts[0]);
      RunKeeps(Step(s, acts[0]), acts[1..]);
    }
  }

  /** The no-overlap rule: however the goroutines interleave, a monitor never has two jobs in flight,
      and before shutdown a registered monitor's flag is set exactly while it has one. */
  lemma NoOverlapInEveryRun(workers: int, acts: seq<Action>, id: Id)
    requires Legal(Init(workers), acts) && CleanRun(Init(workers), acts)
    ensures var s := Run(Init(workers), acts);
      && InFlight(s, id) <= 1
      && (id in s.entries && !s.done ==> (s.entries[id].running <==> InFlight(s, id) == 1))
  {
    RunKeeps(Init(workers), acts);
  }

  lemma TwoBusy(s: State, v: nat, w: nat, id: Id)
    requires v < w < |s.workers| && BusyWith(id)(s.workers[v]) && BusyWith(id)(s.workers[w])
    ensures InFlight(s, id) >= 2
  {
    CountSplit(s.workers, w, BusyWith(id));
    CountHas(s.workers[..w], v, BusyWith(id));
  }

  /** Two workers never execute checks of one monitor at the same time. */
  lemma WorkersDisjoint(s: State, v: nat, w: nat)
    requires NoOverlap(s) && v < w < |s.workers| && s.workers[v].Busy? && s.workers[w].Busy?
    ensures s.workers[v].job.monitor.id != s.workers[w].job.monitor.id
  {
    if s.workers[v].job.monitor.id == s.workers[w].job.monitor.id {
      TwoBusy(s, v, w, s.workers[v].job.monitor.id);
    }
  }

  // ---- the condition is exact ----

  /** No manual trigger of `id` made right after `s` lets two of its jobs be in flight. */
  ghost predicate TriggerSafe(s: State, id: Id) {
    InFlight(FireLock(s, id, true), id) <= 1
  }

  lemma InvIsTriggerSafe(s: State, id: Id)
    requires Inv(s)
    ensures TriggerSafe(s, id)
  {
    FireFlight(s, id, true, id);
  }

  /** Registering `m` keeps its next manual trigger from overlapping exactly when the id is registered
      already or no job of an earlier registration is still in flight. */
  lemma AddSafeExactly(s: State, m: Monitor)
    requires Inv(s)
    ensures TriggerSafe(Upsert(s, m), m.id) <==> CleanAdd(s, DoUpsert(m))
  {
    var u := Upsert(s, m);
    assert InFlight(u, m.id) == InFlight(s, m.id);
    FireFlight(u, m.id, true, m.id);
  }

  /** A monitor is registered, triggered by hand, and its job reaches worker `w`. */
  function CheckOn(m: Monitor, w: nat): seq<Action> {
    [DoUpsert(m), DoFire(m.id, true), DoPoll(0), DoSend(0), DoTake(w)]
  }

  /** The scheduler runs with nothing on its way to the workers, and worker `w` is idle. */
  predicate AtRest(s: State, w: nat) {
    s.started && !s.done && s.size >= 1 && s.fires == [] && s.jobs == [] && w < |s.workers| && s.workers[w].Idle?
  }

  /** A job that waits at the blocking send reaches an idle worker. */
  lemma SendStarts(s: State, f: Fire, w: nat)
    requires s.size >= 1 && s.fires == [f] && f.polled && s.jobs == [] && w < |s.workers| && s.workers[w].Idle?
    ensures Legal(s, [DoSend(0), DoTake(w)])
    ensures Run(s, [DoSend(0), DoTake(w)]) == s.(fires := [], workers := s.workers[w := Busy(f.job)])
  {
    var t := Send(s, 0);
    assert t == s.(fires := [], jobs := [f.job]);
    var end := Take(t, w);
    assert end == s.(fires := [], workers := s.workers[w := Busy(f.job)]);
    RunCons(t, DoTake(w), [], end);
    RunCons(s, DoSend(0), [DoTake(w)], end);
    assert [DoSend(0), DoTake(w)] == [DoSend(0)] + [DoTake(w)];
  }

  lemma TriggerStarts(s: State, m: Monitor, w: nat)
    requires AtRest(s, w) && m.id in s.entries && s.entries[m.id].monitor == m && !s.entries[m.id].running
    ensures Legal(s, CheckOn(m, w)[1..])
    ensures var t := Run(s, CheckOn(m, w)[1..]);
      && t.started && !t.done && t.size == s.size && t.fires == [] && t.jobs == []
      && t.workers == s.workers[w := Busy(Job(m, true))]
  {
    var f := Fire(s.entries[m.id].gen, Job(m, true), true);
    var s2 := FireLock(s, m.id, true);
    var s3 := Poll(s2, 0);
    assert s3.fires == [f];
    SendStarts(s3, f, w);
    var end := Run(s3, [DoSend(0), DoTake(w)]);
    RunCons(s2, DoPoll(0), [DoSend(0), DoTake(w)], end);
    RunCons(s, DoFire(m.id, true), [DoPoll(0)] + [DoSend(0), DoTake(w)], end);
    assert CheckOn(m, w)[1..] == [DoFire(m.id, true)] + ([DoPoll(0)] + [DoSend(0), DoTake(w)]);
  }

  lemma CheckStarts(s: State, m: Monitor, w: nat)
    requires AtRest(s, w) && m.id !in s.entries
    ensures Legal(s, CheckOn(m, w))
    ensures var t := Run(s, CheckOn(m, w));
      && t.started && !t.done && t.size == s.size && t.fires == [] && t.jobs == []
      && t.workers == s.workers[w := Busy(Job(m, true))]
  {
    TriggerStarts(Upsert(s, m), m, w);
  }

  /** Remove followed by Add while the old check executes: two workers run the same monitor. */
  lemma RemoveThenAddOverlaps(m: Monitor)
    ensures var acts := [DoStart] + CheckOn(m, 0) + [DoForget(m.id)] + CheckOn(m, 1);
      && Legal(Init(2), acts)
      && Run(Init(2), acts).workers == [Busy(Job(m, true)), Busy(Job(m, true))]
  {
    var s1 := Start(Init(2));
    CheckStarts(s1, m, 0);
    var s2 := Run(s1, CheckOn(m, 0));
    var s3 := Forget(s2, m.id);
    CheckStarts(s3, m, 1);
    var end := Run(s3, CheckOn(m, 1));
    RunCons(s2, DoForget(m.id), CheckOn(m, 1), end);
    RunConcat(s1, CheckOn(m, 0), [DoForget(m.id)] + CheckOn(m, 1));
    RunCons(Init(2), DoStart, CheckOn(m, 0) + ([DoForget(m.id)] + CheckOn(m, 1)), end);
    assert [DoStart] + (CheckOn(m, 0) + ([DoForget(m.id)] + CheckOn(m, 1)))
        == [DoStart] + CheckOn(m, 0) + [DoForget(m.id)] + CheckOn(m, 1);
    assert end.workers == [Busy(Job(m, true)), Busy(Job(m, true))];
  }

  lemma RunCons(s: State, a: Action, rest: seq<Action>, end: State)
    requires Enabled(s, a) && Legal(Step(s, a), rest) && Run(Step(s, a), rest) == end
    ensures Legal(s, [a] + rest) && Run(s, [a] + rest) == end
  {
    assert ([a] + rest)[1..] == rest;
  }

  lemma {:induction false} RunConcat(s: State, xs: seq<Action>, ys: seq<Action>)
    requires Legal(s, xs) && Legal(Run(s, xs), ys)
    ensures Legal(s, xs + ys) && Run(s, xs + ys) == Run(Run(s, xs), ys)
    decreases |xs|
  {
    if xs == [] {
      assert xs + ys == ys;
    } else {
      assert (xs + ys)[1..] == xs[1..] + ys;
      RunConcat(Step(s, xs[0]), xs[1..], ys);
    }
  }
}
