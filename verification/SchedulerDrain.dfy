/** Progress of the scheduler: before shutdown some goroutine that holds a job can always take a
    step, every such step uses up weight, so jobs in flight drain once no new check is fired. */
module SchedulerDrain {
  import opened Common
  import opened SchedulerSpec
  import opened SchedulerSafety

  function Unpolled(): Fire -> bool { (f: Fire) => !f.polled }
  function IsBusy(): Worker -> bool { (w: Worker) => w.Busy? }

  /** 3 for each blocked send (4 before its first select), 2 for each queued job, 1 for each execution. */
  ghost function Weight(s: State): nat {
    3 * |s.fires| + Count(s.fires, Unpolled()) + 2 * |s.jobs| + Count(s.workers, IsBusy())
  }

  /** The steps that move a job already in flight. */
  predicate Moves(a: Action) { a.DoPoll? || a.DoSend? || a.DoAbort? || a.DoTake? || a.DoFinish? }

  predicate AllMove(acts: seq<Action>) { forall a | a in acts :: Moves(a) }

  lemma MoveShrinks(s: State, a: Action)
    requires Enabled(s, a) && Moves(a)
    ensures Weight(Step(s, a)) < Weight(s)
  {
    match a
    case DoPoll(i) =>
      CountRemove(s.fires, i, Unpolled());
      CountUpdate(s.fires, i, s.fires[i].(polled := true), Unpolled());
    case DoSend(i) => CountRemove(s.fires, i, Unpolled());
    case DoAbort(i) => CountRemove(s.fires, i, Unpolled());
    case DoTake(w) => CountUpdate(s.workers, w, Busy(s.jobs[0]), IsBusy());
    case DoFinish(w) => CountUpdate(s.workers, w, Idle, IsBusy());
    case _ =>
  }

  /** However they are chosen, moves alone cannot go on longer than the weight of the state. */
  lemma {:induction false} MovesAreBounded(s: State, acts: seq<Action>)
    requires Legal(s, acts) && AllMove(acts)
    ensures |acts| + Weight(Run(s, acts)) <= Weight(s)
    decreases |acts|
  {
    if acts == [] {
    } else {
      MoveShrinks(s, acts[0]);
      MovesAreBounded(Step(s, acts[0]), acts[1..]);
    }
  }

  lemma WeightlessIsIdle(s: State, id: Id)
    requires Weight(s) == 0
    ensures InFlight(s, id) == 0
  {
    CountZero(s.workers, IsBusy());
    CountZero(s.workers, BusyWith(id));
  }

  lemma BusyWorker(s: State) returns (w: nat)
    requires Count(s.workers, IsBusy()) > 0
    ensures w < |s.workers| && s.workers[w].Busy?
  {
    CountZero(s.workers, IsBusy());
    var b :| b in s.workers && b.Busy?;
    w :| w < |s.workers| && s.workers[w] == b;
  }

  /** No deadlock: while anything is in flight before shutdown, some holder of a job can move. */
  lemma SomethingMoves(s: State) returns (a: Action)
    requires Inv(s) && s.started && !s.done && Weight(s) > 0
    ensures Enabled(s, a) && Moves(a)
  {
    if Count(s.workers, IsBusy()) > 0 {
      var w := BusyWorker(s);
      return DoFinish(w);
    }
    CountZero(s.workers, IsBusy());
    assert s.workers[0] in s.workers;
    if s.jobs != [] { return DoTake(0); }
    if s.fires[0].polled { return DoSend(0); }
    return DoPoll(0);
  }

  /** From every reachable state before shutdown there is a way to drain that fires nothing new. */
  lemma {:induction false} Drains(s: State) returns (acts: seq<Action>)
    requires Inv(s) && s.started && !s.done
    ensures Legal(s, acts) && AllMove(acts) && |acts| <= Weight(s)
    ensures var t := Run(s, acts);
      && Weight(t) == 0
      && forall id | id in t.entries :: !t.entries[id].running
    decreases Weight(s)
  {
    acts := [];
    if Weight(s) == 0 {
      forall id | id in s.entries ensures !s.entries[id].running { WeightlessIsIdle(s, id); }
    } else {
      var a := SomethingMoves(s);
      MoveShrinks(s, a);
      StepKeeps(s, a);
      var rest := Drains(Step(s, a));
      RunCons(s, a, rest, Run(Step(s, a), rest));
      acts := [a] + rest;
    }
  }

  /** When shutdown has begun, all calls blocked in `fire` can return without anybody's help. */
  lemma {:induction false} ShutdownReleases(s: State) returns (acts: seq<Action>)
    requires s.done
    ensures Legal(s, acts) && |acts| == |s.fires| && Run(s, acts).fires == []
    ensures forall a | a in acts :: a.DoPoll? || a.DoAbort?
    decreases |s.fires|
  {
    if s.fires == [] {
      acts := [];
    } else {
      var a := if s.fires[0].polled then DoAbort(0) else DoPoll(0);
      var rest := ShutdownReleases(Step(s, a));
      RunCons(s, a, rest, Run(Step(s, a), rest));
      acts := [a] + rest;
    }
  }

  // ---- after Stop ----

  /** A stopped scheduler was started, and its context is cancelled. */
  lemma {:induction false} StoppedWasStarted(s: State, acts: seq<Action>)
    requires Legal(s, acts) && (s.stopped ==> s.started && s.done)
    ensures var t := Run(s, acts); t.stopped ==> t.started && t.done
    decreases |acts|
  {
    if acts == [] { return; }
    StoppedWasStarted(Step(s, acts[0]), acts[1..]);
  }

  lemma {:induction false} StaysStopped(s: State, acts: seq<Action>)
    requires Legal(s, acts) && s.stopped && s.started && forall w | w in s.workers :: w.Exited?
    ensures var t := Run(s, acts);
      t.workers == s.workers && |t.tickers| == |s.tickers| && Taken(s, acts) == []
    decreases |acts|
  {
    if acts == [] { return; }
    var a := acts[0];
    assert a.DoTake? || a.DoFinish? || a.DoExit? ==> s.workers[a.w] in s.workers;
    StaysStopped(Step(s, a), acts[1..]);
  }

  /** When Stop returns no check is executing, no tick is inside `fire` and nothing is registered; and whatever is
      called after that, no worker ever takes a job again and no ticker starts. */
  lemma StopIsFinal(workers: int, acts: seq<Action>, more: seq<Action>)
    requires Legal(Init(workers), acts) && Enabled(Run(Init(workers), acts), DoStopped)
    requires Legal(Step(Run(Init(workers), acts), DoStopped), more)
    ensures var s := Step(Run(Init(workers), acts), DoStopped);
      && s.entries == map[] && (forall w | w in s.workers :: !w.Busy?) && (forall f | f in s.fires :: f.job.manual)
      && Taken(s, more) == [] && (forall w | w in Run(s, more).workers :: !w.Busy?)
      && |Run(s, more).tickers| == |s.tickers|
  {
    StoppedWasStarted(Init(workers), acts);
    StaysStopped(Step(Run(Init(workers), acts), DoStopped), more);
  }

  // ---- the queue ----

  /** The job that a step sends to the channel, if any. */
  ghost function SentBy(s: State, a: Action): seq<Job>
    requires Enabled(s, a)
  {
    if a.DoSend? then [s.fires[a.i].job] else []
  }

  /** The job that a step hands to a worker, if any. */
  ghost function TakenBy(s: State, a: Action): seq<Job>
    requires Enabled(s, a)
  {
    if a.DoTake? then [Step(s, a).workers[a.w].job] else []
  }

  ghost function Sent(s: State, acts: seq<Action>): seq<Job>
    requires Legal(s, acts)
    decreases |acts|
  {
    if acts == [] then [] else SentBy(s, acts[0]) + Sent(Step(s, acts[0]), acts[1..])
  }

  ghost function Taken(s: State, acts: seq<Action>): seq<Job>
    requires Legal(s, acts)
    decreases |acts|
  {
    if acts == [] then [] else TakenBy(s, acts[0]) + Taken(Step(s, acts[0]), acts[1..])
  }

  /** Workers execute exactly the jobs that were sent, in the order they were sent: none is dropped,
      repeated or overtaken on its way through the channel. */
  lemma {:induction false} SentInOrder(s: State, acts: seq<Action>)
    requires Legal(s, acts)
    ensures s.jobs + Sent(s, acts) == Taken(s, acts) + Run(s, acts).jobs
    decreases |acts|
  {
    if acts == [] { return; }
    var t := Step(s, acts[0]);
    SentInOrder(t, acts[1..]);
    QueueStep(s, acts[0]);
    Chain(s.jobs, SentBy(s, acts[0]), TakenBy(s, acts[0]), t.jobs,
          Sent(t, acts[1..]), Taken(t, acts[1..]), Run(t, acts[1..]).jobs);
  }

  lemma QueueStep(s: State, a: Action)
    requires Enabled(s, a)
    ensures s.jobs + SentBy(s, a) == TakenBy(s, a) + Step(s, a).jobs
  {
    if a.DoTake? { assert s.jobs == [s.jobs[0]] + s.jobs[1..]; }
  }

  lemma Chain<T>(before: seq<T>, a: seq<T>, b: seq<T>, middle: seq<T>, sent: seq<T>, taken: seq<T>, end: seq<T>)
    requires before + a == b + middle && middle + sent == taken + end
    ensures before + (a + sent) == (b + taken) + end
  {
    calc {
      before + (a + sent);
      (before + a) + sent;
      b + (middle + sent);
      (b + taken) + end;
    }
  }
}
