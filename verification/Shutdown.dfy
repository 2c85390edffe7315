/** Shutdown of the service: the scheduler waits for its checks before the notifier is stopped, while the
    notifier's workers leave as soon as the service's context is cancelled. A check that hands a job to a full
    queue then waits for good. */
module Shutdown {
  import opened Common
  import opened Monitors
  import Spec = SchedulerSpec
  import Delivery = DeliverySpec

  /** `calls` are the workers whose check has reached Enqueue, with the job it waits to hand over, or None once
      it has; `cancelled` is the service's context; `over` says that the scheduler's Stop has returned. */
  datatype App = App(
    checks: Spec.State, delivery: Delivery.State, calls: map<nat, Option<Delivery.Notice>>, cancelled: bool, over: bool)

  datatype Step =
    | Checks(action: Spec.Action)
    | Notify(w: nat, job: Delivery.Notice)
    | Accept(w: nat)
    | Drop(w: nat)
    | Work(work: Delivery.Action)
    | Cancel
    | StopNotifier

  function Initial(workers: int, senders: nat): App {
    App(Spec.Init(workers), Delivery.Init(senders), map[], false, false)
  }

  /** The check of worker `w` is inside Enqueue. */
  predicate Waits(v: App, w: nat) { w in v.calls && v.calls[w].Some? }

  predicate BusyAt(v: App, w: nat) { w < |v.checks.workers| && v.checks.workers[w].Busy? }

  /** The arms of Enqueue: room in the queue, or the notifier has been stopped. */
  predicate Ready(d: Delivery.State) { |d.queue| < Delivery.QUEUE_SIZE || d.stopped }

  /** A step of a delivery worker. */
  predicate ByWorker(a: Delivery.Action) { a.Take? || a.Claim? || a.Deliver? || a.Exit? }

  predicate Enabled(v: App, s: Step) {
    match s
    case Checks(a) => Spec.Enabled(v.checks, a) && !a.DoCancel? && (a.DoFinish? ==> !Waits(v, a.w))
    case Notify(w, _) => BusyAt(v, w) && w !in v.calls
    case Accept(w) => Waits(v, w) && |v.delivery.queue| < Delivery.QUEUE_SIZE
    case Drop(w) => Waits(v, w) && v.delivery.stopped
    case Work(a) => Delivery.Enabled(v.delivery, a) && ByWorker(a) && (a.Exit? ==> v.cancelled || v.delivery.stopped)
    case Cancel => v.checks.started
    case StopNotifier => v.over
  }

  function StepTo(v: App, s: Step): App
    requires Enabled(v, s)
  {
    match s
    case Checks(a) =>
      v.(checks := Spec.Step(v.checks, a), calls := if a.DoFinish? then v.calls - {a.w} else v.calls,
         over := v.over || a.DoStopped?)
    case Notify(w, n) => v.(calls := v.calls[w := Some(n)])
    case Accept(w) =>
      v.(delivery := Delivery.Step(v.delivery, Delivery.Enqueue(v.calls[w].value)), calls := v.calls[w := None])
    case Drop(w) => v.(calls := v.calls[w := None])
    case Work(a) => v.(delivery := Delivery.Step(v.delivery, a))
    case Cancel => v.(cancelled := true, checks := Spec.Step(v.checks, Spec.DoCancel))
    case StopNotifier => v.(delivery := Delivery.Step(v.delivery, Delivery.Stop))
  }

  ghost predicate CanSteps(v: App, steps: seq<Step>)
    decreases |steps|
  {
    steps == [] || (Enabled(v, steps[0]) && CanSteps(StepTo(v, steps[0]), steps[1..]))
  }

  ghost function RunSteps(v: App, steps: seq<Step>): App
    requires CanSteps(v, steps)
    decreases |steps|
  {
    if steps == [] then v else RunSteps(StepTo(v, steps[0]), steps[1..])
  }

  // ---- when a waiting check can return ----

  ghost predicate AllByWorkers(acts: seq<Delivery.Action>) { forall a | a in acts :: ByWorker(a) }

  /** The delivery workers can bring about that Enqueue returns. */
  ghost predicate CanBecomeReady(d: Delivery.State) {
    exists acts: seq<Delivery.Action> :: Delivery.Legal(d, acts) && AllByWorkers(acts) && Ready(Delivery.Run(d, acts))
  }

  predicate Gone(d: Delivery.State) { forall x | x in d.slots :: x.Exited? }

  lemma OneStep(d: Delivery.State, a: Delivery.Action)
    requires Delivery.Enabled(d, a) && ByWorker(a) && CanBecomeReady(Delivery.Step(d, a))
    ensures CanBecomeReady(d)
  {
    var acts :| Delivery.Legal(Delivery.Step(d, a), acts) && AllByWorkers(acts) && Ready(Delivery.Run(Delivery.Step(d, a), acts));
    var all := [a] + acts;
    assert all[1..] == acts;
    assert Delivery.Legal(d, all) && AllByWorkers(all) && Ready(Delivery.Run(d, all));
  }

  lemma ReadyNow(d: Delivery.State)
    requires Ready(d)
    ensures CanBecomeReady(d)
  {
    assert Delivery.Legal(d, []) && Delivery.Run(d, []) == d && AllByWorkers([]);
  }

  lemma IdleMakesRoom(d: Delivery.State, w: nat)
    requires w < |d.slots| && d.slots[w].Idle? && |d.queue| <= Delivery.QUEUE_SIZE
    ensures CanBecomeReady(d)
  {
    if Ready(d) {
      ReadyNow(d);
    } else {
      ReadyNow(Delivery.Step(d, Delivery.Take(w)));
      OneStep(d, Delivery.Take(w));
    }
  }

  lemma WorkerMakesRoom(d: Delivery.State, w: nat)
    requires w < |d.slots| && !d.slots[w].Exited? && |d.queue| <= Delivery.QUEUE_SIZE
    ensures CanBecomeReady(d)
  {
    var a := if d.slots[w].Claiming? then Delivery.Claim(w) else Delivery.Deliver(w);
    if d.slots[w].Idle? {
      IdleMakesRoom(d, w);
    } else {
      var e := Delivery.Step(d, a);
      if e.slots[w].Sending? {
        IdleMakesRoom(Delivery.Step(e, Delivery.Deliver(w)), w);
        OneStep(e, Delivery.Deliver(w));
      } else {
        IdleMakesRoom(e, w);
      }
      OneStep(d, a);
    }
  }

  lemma GoneDoNothing(d: Delivery.State, acts: seq<Delivery.Action>)
    requires Gone(d) && Delivery.Legal(d, acts) && AllByWorkers(acts)
    ensures acts == []
  {
    assert forall w | 0 <= w < |d.slots| :: d.slots[w] in d.slots;
    assert forall i | 0 <= i < |acts| :: acts[i] in acts;
  }

  /** A check inside Enqueue can return if and only if the queue has room, the notifier is stopped, or one of its
      workers has not left. */
  lemma ReturnsExactly(d: Delivery.State)
    requires |d.queue| <= Delivery.QUEUE_SIZE
    ensures CanBecomeReady(d) <==> Ready(d) || !Gone(d)
  {
    if Ready(d) {
      ReadyNow(d);
    } else if !Gone(d) {
      var x :| x in d.slots && !x.Exited?;
      var w :| 0 <= w < |d.slots| && d.slots[w] == x;
      WorkerMakesRoom(d, w);
    } else {
      forall acts | Delivery.Legal(d, acts) && AllByWorkers(acts) ensures acts == [] { GoneDoNothing(d, acts); }
    }
  }

  // ---- while the service runs ----

  ghost predicate Serves(v: App) {
    && |v.delivery.queue| <= Delivery.QUEUE_SIZE
    && (!v.cancelled && !v.delivery.stopped ==> forall x | x in v.delivery.slots :: !x.Exited?)
  }

  lemma {:induction false} RunServes(v: App, steps: seq<Step>)
    requires Serves(v) && CanSteps(v, steps)
    ensures Serves(RunSteps(v, steps)) && |RunSteps(v, steps).delivery.slots| == |v.delivery.slots|
    decreases |steps|
  {
    if steps == [] {
    } else {
      RunServes(StepTo(v, steps[0]), steps[1..]);
    }
  }

  /** Until the context is cancelled, every check inside Enqueue can return; and after that exactly as above. */
  lemma ReturnsWhileServing(workers: int, senders: nat, steps: seq<Step>)
    requires senders >= 1 && CanSteps(Initial(workers, senders), steps)
    ensures var v := RunSteps(Initial(workers, senders), steps);
      && (!v.cancelled ==> CanBecomeReady(v.delivery))
      && (CanBecomeReady(v.delivery) <==> Ready(v.delivery) || !Gone(v.delivery))
  {
    var v := RunSteps(Initial(workers, senders), steps);
    RunServes(Initial(workers, senders), steps);
    assert v.delivery.slots[0] in v.delivery.slots;
    ReturnsExactly(v.delivery);
  }

  // ---- the deadlock ----

  /** Worker `w` is inside Enqueue with a full queue, the delivery workers have left, and the notifier is not
      stopped because the scheduler's Stop has not returned. */
  ghost predicate Hangs(v: App, w: nat) {
    && Waits(v, w) && BusyAt(v, w) && v.checks.started && !v.over
    && |v.delivery.queue| == Delivery.QUEUE_SIZE && !v.delivery.stopped && Gone(v.delivery)
  }

  lemma HangStays(v: App, w: nat, s: Step)
    requires Hangs(v, w) && Enabled(v, s)
    ensures Hangs(StepTo(v, s), w)
  {
    assert forall x | 0 <= x < |v.delivery.slots| :: v.delivery.slots[x] in v.delivery.slots;
    assert v.checks.workers[w] in v.checks.workers;
  }

  /** Nothing leads out of it: the scheduler's Stop never returns, and the notifier is never stopped. */
  lemma {:induction false} HangsForGood(v: App, w: nat, steps: seq<Step>)
    requires Hangs(v, w) && CanSteps(v, steps)
    ensures Hangs(RunSteps(v, steps), w)
    decreases |steps|
  {
    if steps == [] {
    } else {
      HangStays(v, w, steps[0]);
      HangsForGood(StepTo(v, steps[0]), w, steps[1..]);
    }
  }

  lemma StepsCons(v: App, s: Step, rest: seq<Step>)
    requires Enabled(v, s) && CanSteps(StepTo(v, s), rest)
    ensures CanSteps(v, [s] + rest) && RunSteps(v, [s] + rest) == RunSteps(StepTo(v, s), rest)
  {
    assert ([s] + rest)[1..] == rest;
  }

  lemma {:induction false} StepsConcat(v: App, xs: seq<Step>, ys: seq<Step>)
    requires CanSteps(v, xs) && CanSteps(RunSteps(v, xs), ys)
    ensures CanSteps(v, xs + ys) && RunSteps(v, xs + ys) == RunSteps(RunSteps(v, xs), ys)
    decreases |xs|
  {
    if xs == [] {
      assert xs + ys == ys;
    } else {
      assert (xs + ys)[1..] == xs[1..] + ys;
      StepsConcat(StepTo(v, xs[0]), xs[1..], ys);
    }
  }

  /** The delivery workers are there and have taken nothing yet. */
  predicate Waiting(d: Delivery.State) { |d.slots| >= 1 && forall x | x in d.slots :: x.Idle? }

  /** One idle check worker, a registered monitor, and `n` jobs queued for delivery workers that are slow. */
  ghost predicate Rests(v: App, id: Id, n: nat) {
    var s := v.checks;
    && s.started && !s.done && s.size == 1 && s.fires == [] && s.jobs == [] && s.workers == [Spec.Idle]
    && id in s.entries && s.entries[id].monitor.id == id && !s.entries[id].running
    && v.calls == map[] && !v.cancelled && !v.over
    && |v.delivery.queue| == n && Waiting(v.delivery) && !v.delivery.stopped
  }

  /** The same with a check that has come to Enqueue. */
  ghost predicate Asks(v: App, id: Id, job: Delivery.Notice, n: nat) {
    var s := v.checks;
    && s.started && !s.done && s.size == 1 && s.fires == [] && s.jobs == []
    && |s.workers| == 1 && s.workers[0].Busy? && s.workers[0].job.monitor.id == id
    && id in s.entries && s.entries[id].monitor.id == id
    && v.calls == map[0 := Some(job)] && !v.cancelled && !v.over
    && |v.delivery.queue| == n && Waiting(v.delivery) && !v.delivery.stopped
  }

  function Asking(id: Id, job: Delivery.Notice): seq<Step> {
    [Checks(Spec.DoFire(id, true)), Checks(Spec.DoPoll(0)), Checks(Spec.DoSend(0)), Checks(Spec.DoTake(0)), Notify(0, job)]
  }

  lemma CheckAsks(v: App, id: Id, job: Delivery.Notice, n: nat)
    requires Rests(v, id, n)
    ensures CanSteps(v, Asking(id, job)) && Asks(RunSteps(v, Asking(id, job)), id, job, n)
  {
    var steps := Asking(id, job);
    var v1 := StepTo(v, steps[0]);
    var v2 := StepTo(v1, steps[1]);
    var v3 := StepTo(v2, steps[2]);
    var v4 := StepTo(v3, steps[3]);
    StepsCons(v4, steps[4], []);
    StepsCons(v3, steps[3], [steps[4]]);
    StepsCons(v2, steps[2], [steps[3], steps[4]]);
    StepsCons(v1, steps[1], [steps[2], steps[3], steps[4]]);
    StepsCons(v, steps[0], [steps[1], steps[2], steps[3], steps[4]]);
    assert steps == [steps[0]] + [steps[1], steps[2], steps[3], steps[4]];
  }

  lemma CheckQueues(v: App, id: Id, job: Delivery.Notice, n: nat)
    requires Rests(v, id, n) && n < Delivery.QUEUE_SIZE
    ensures var steps := Asking(id, job) + [Accept(0), Checks(Spec.DoFinish(0))];
      CanSteps(v, steps) && Rests(RunSteps(v, steps), id, n + 1)
  {
    CheckAsks(v, id, job, n);
    var u := RunSteps(v, Asking(id, job));
    StepsCons(StepTo(u, Accept(0)), Checks(Spec.DoFinish(0)), []);
    StepsCons(u, Accept(0), [Checks(Spec.DoFinish(0))]);
    assert [Accept(0), Checks(Spec.DoFinish(0))] == [Accept(0)] + [Checks(Spec.DoFinish(0))];
    StepsConcat(v, Asking(id, job), [Accept(0), Checks(Spec.DoFinish(0))]);
  }

  lemma {:induction false} QueueFills(v: App, id: Id, jobs: nat -> Delivery.Notice, n: nat) returns (steps: seq<Step>)
    requires Rests(v, id, n) && n <= Delivery.QUEUE_SIZE
    ensures CanSteps(v, steps) && Rests(RunSteps(v, steps), id, Delivery.QUEUE_SIZE)
    decreases Delivery.QUEUE_SIZE - n
  {
    if n == Delivery.QUEUE_SIZE {
      steps := [];
    } else {
      var first := Asking(id, jobs(n)) + [Accept(0), Checks(Spec.DoFinish(0))];
      CheckQueues(v, id, jobs(n), n);
      var rest := QueueFills(RunSteps(v, first), id, jobs, n + 1);
      StepsConcat(v, first, rest);
      steps := first + rest;
    }
  }

  /** The delivery workers from `w` on leave. */
  function Leaving(w: nat, n: nat): seq<Step>
    requires w <= n
    decreases n - w
  {
    if w == n then [] else [Work(Delivery.Exit(w))] + Leaving(w + 1, n)
  }

  lemma {:induction false} AllLeave(v: App, w: nat)
    requires v.cancelled && w <= |v.delivery.slots|
    requires forall i | 0 <= i < |v.delivery.slots| :: if i < w then v.delivery.slots[i].Exited? else v.delivery.slots[i].Idle?
    ensures var steps := Leaving(w, |v.delivery.slots|);
      && CanSteps(v, steps)
      && var u := RunSteps(v, steps);
        u == v.(delivery := v.delivery.(slots := u.delivery.slots)) && Gone(u.delivery)
    decreases |v.delivery.slots| - w
  {
    if w == |v.delivery.slots| {
    } else {
      var u := StepTo(v, Work(Delivery.Exit(w)));
      AllLeave(u, w + 1);
      StepsCons(v, Work(Delivery.Exit(w)), Leaving(w + 1, |v.delivery.slots|));
    }
  }

  lemma CancelHangs(v: App, id: Id, job: Delivery.Notice)
    requires Asks(v, id, job, Delivery.QUEUE_SIZE)
    ensures var steps := [Cancel] + Leaving(0, |v.delivery.slots|);
      CanSteps(v, steps) && Hangs(RunSteps(v, steps), 0)
  {
    var u := StepTo(v, Cancel);
    assert forall i | 0 <= i < |v.delivery.slots| :: v.delivery.slots[i] in v.delivery.slots;
    AllLeave(u, 0);
    StepsCons(v, Cancel, Leaving(0, |v.delivery.slots|));
  }

  /** The deadlock is reachable from the start with any number of delivery workers: checks fill the queue faster
      than it is delivered, one more waits, the context is cancelled, and the delivery workers leave. */
  lemma ShutdownCanHang(m: Monitor, jobs: nat -> Delivery.Notice, senders: nat) returns (steps: seq<Step>)
    requires senders >= 1
    ensures CanSteps(Initial(1, senders), steps) && Hangs(RunSteps(Initial(1, senders), steps), 0)
  {
    var v := Initial(1, senders);
    var v1 := StepTo(v, Checks(Spec.DoStart));
    var v2 := StepTo(v1, Checks(Spec.DoUpsert(m)));
    assert Rests(v2, m.id, 0);
    var filling := QueueFills(v2, m.id, jobs, 0);
    var last := Asking(m.id, jobs(Delivery.QUEUE_SIZE));
    CheckAsks(RunSteps(v2, filling), m.id, jobs(Delivery.QUEUE_SIZE), Delivery.QUEUE_SIZE);
    StepsConcat(v2, filling, last);
    var v3 := RunSteps(v2, filling + last);
    CancelHangs(v3, m.id, jobs(Delivery.QUEUE_SIZE));
    var end := [Cancel] + Leaving(0, |v3.delivery.slots|);
    StepsConcat(v2, filling + last, end);
    var rest := filling + last + end;
    StepsCons(v1, Checks(Spec.DoUpsert(m)), rest);
    StepsCons(v, Checks(Spec.DoStart), [Checks(Spec.DoUpsert(m))] + rest);
    steps := [Checks(Spec.DoStart)] + ([Checks(Spec.DoUpsert(m))] + rest);
  }
}
