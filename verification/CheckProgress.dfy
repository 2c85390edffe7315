/** Progress of the whole engine: before shutdown, while anything is in flight, some goroutine can go on, and
    each such move uses up effort, so checks come to an end. */
module CheckProgress {
  import opened CheckRun
  import opened Interleaving
  import opened CheckEngine
  import Drain = SchedulerDrain
  import Spec = SchedulerSpec
  import Safety = SchedulerSafety

  function LeftOf(runs: map<nat, Check>, w: nat): nat { if w in runs then CallsLeft(runs[w].stage) else 0 }

  /** The store calls that the checks of the first `n` workers have ahead of them at most. */
  function CallsAhead(n: nat, runs: map<nat, Check>): nat {
    if n == 0 then 0 else CallsAhead(n - 1, runs) + LeftOf(runs, n - 1)
  }

  /** A job not yet taken or finished weighs more than the calls of a whole check. */
  ghost function Effort(v: System): nat {
    9 * Drain.Weight(v.scheduler) + CallsAhead(|v.scheduler.workers|, v.engine.runs)
  }

  /** The moves that carry a job in flight further. */
  predicate GoesOn(m: Move) {
    m.Dispatch? || m.Call? || m.Return? || (m.Background? && (m.action.DoPoll? || m.action.DoSend? || m.action.DoAbort?))
  }

  lemma {:induction false} OtherRun(n: nat, a: map<nat, Check>, b: map<nat, Check>, w: nat)
    requires forall x | x != w :: LeftOf(a, x) == LeftOf(b, x)
    ensures CallsAhead(n, b) == CallsAhead(n, a) + if w < n then LeftOf(b, w) - LeftOf(a, w) else 0
  {
    if n == 0 {
    } else {
      OtherRun(n - 1, a, b, w);
    }
  }

  lemma CallGetsOn(e: Engine, w: nat)
    requires Filed(e) && w in e.runs
    ensures var f := Do(e, NextCall(w));
      LeftOf(f.runs, w) < LeftOf(e.runs, w) && forall x | x != w :: LeftOf(f.runs, x) == LeftOf(e.runs, x)
  {
    assert CallsLeft(Advance(e.db, e.runs[w]).1.stage) < CallsLeft(e.runs[w].stage);
  }

  lemma CallShrinks(v: System, w: nat)
    requires Coupled(v) && CanMove(v, Call(w))
    ensures Effort(MoveTo(v, Call(w))) < Effort(v)
  {
    var t := MoveTo(v, Call(w));
    assert t.scheduler == v.scheduler && t.engine == Do(v.engine, NextCall(w));
    CallGetsOn(v.engine, w);
    OtherRun(|v.scheduler.workers|, v.engine.runs, t.engine.runs, w);
  }

  lemma DispatchShrinks(v: System, w: nat, p: Probe)
    requires Coupled(v) && CanMove(v, Dispatch(w, p))
    ensures Effort(MoveTo(v, Dispatch(w, p))) < Effort(v)
  {
    var s, t := v.scheduler, MoveTo(v, Dispatch(w, p));
    Drain.MoveShrinks(s, Spec.DoTake(w));
    OtherRun(|s.workers|, v.engine.runs, t.engine.runs, w);
    assert |t.scheduler.workers| == |s.workers| && LeftOf(t.engine.runs, w) == 8;
  }

  lemma MoveShrinksEffort(v: System, m: Move)
    requires Coupled(v) && CanMove(v, m) && GoesOn(m)
    ensures Effort(MoveTo(v, m)) < Effort(v)
  {
    match m
    case Background(a) => Drain.MoveShrinks(v.scheduler, a);
    case Dispatch(w, p) => DispatchShrinks(v, w, p);
    case Call(w) => CallShrinks(v, w);
    case Return(w) => Drain.MoveShrinks(v.scheduler, Spec.DoFinish(w));
    case _ =>
  }

  lemma ShapeStays(s: Spec.State, a: Spec.Action)
    requires Safety.Shape(s) && Spec.Enabled(s, a) && Drain.Moves(a)
    ensures Safety.Shape(Spec.Step(s, a))
  {}

  lemma GoingOnCouples(v: System, m: Move)
    requires Coupled(v) && Safety.Shape(v.scheduler) && CanMove(v, m) && GoesOn(m)
    ensures Coupled(MoveTo(v, m)) && Safety.Shape(MoveTo(v, m).scheduler)
  {
    MoveCouples(v, m);
    match m
    case Background(a) => ShapeStays(v.scheduler, a);
    case Dispatch(w, _) => ShapeStays(v.scheduler, Spec.DoTake(w));
    case Return(w) => ShapeStays(v.scheduler, Spec.DoFinish(w));
    case _ =>
  }

  /** However they are chosen, such moves alone cannot go on for longer than the effort. */
  lemma {:induction false} ChecksEnd(v: System, moves: seq<Move>)
    requires Coupled(v) && Safety.Shape(v.scheduler) && CanRun(v, moves) && forall m | m in moves :: GoesOn(m)
    ensures |moves| + Effort(RunMoves(v, moves)) <= Effort(v)
    decreases |moves|
  {
    if moves == [] {
    } else {
      assert moves[0] in moves;
      MoveShrinksEffort(v, moves[0]);
      GoingOnCouples(v, moves[0]);
      ChecksEnd(MoveTo(v, moves[0]), moves[1..]);
    }
  }

  lemma CallIsPossible(v: System, w: nat)
    requires Coupled(v) && w in v.engine.runs
    ensures CanMove(v, Call(w))
  {
    CallKeepsRows(v.engine.db, v.engine.runs[w]);
  }

  /** No deadlock of the composition: before shutdown, while anything is in flight, a check makes a call, a worker
      returns or takes a job, or a blocked send goes on. `p` is what a check would meet if one is to start. */
  lemma SomethingGoesOn(v: System, p: Probe) returns (m: Move)
    requires Coupled(v) && Safety.Inv(v.scheduler)
    requires v.scheduler.started && !v.scheduler.done && Drain.Weight(v.scheduler) > 0
    requires FreshId(v.engine, p.incidentId)
    ensures CanMove(v, m) && GoesOn(m)
  {
    var a := Drain.SomethingMoves(v.scheduler);
    if a.DoFinish? {
      if a.w in v.engine.runs {
        CallIsPossible(v, a.w);
        m := Call(a.w);
      } else {
        m := Return(a.w);
      }
    } else if a.DoTake? {
      IdleMayStart(v, a.w, p);
      m := Dispatch(a.w, p);
    } else {
      m := Background(a);
    }
  }
}
