/** Serialisation. As long as the requests of a monitor, and its checks, do not run side by side among themselves,
    and no write of its state row by one of the two writers falls between a read and the write of the other,
    the monitor's rows end up as if its own operations had run one after the other. */
module Serial {
  import opened Common
  import opened Store
  import opened CheckRun
  import opened World
  import opened Projection
  import opened Commute
  import opened Requests
  import opened Placement
  import opened Interleaving

  // ---- the operations of a monitor ----

  /** The operation of monitor `id` that takes place in a step: a check takes place where it reads its state. */
  ghost function OpOf(e: Engine, a: Act, id: Id): seq<Op> {
    match a
    case NextCall(w) =>
      if w in e.runs && e.runs[w].monitor == id && e.runs[w].stage.Getting? then [CheckOp(id, e.runs[w].probe)] else []
    case NextStep(k) =>
      if Allowed(e, a) && Target(e.requests[k].op) == id && Unplaced(e.requests[k]) && !Unplaced(Step(e.db, e.requests[k]).1)
      then [e.requests[k].op] else []
    case _ => []
  }

  ghost function OpsOf(e: Engine, acts: seq<Act>, id: Id): seq<Op>
    requires Schedule(e, acts)
    decreases |acts|
  {
    if acts == [] then [] else OpOf(e, acts[0], id) + OpsOf(Do(e, acts[0]), acts[1..], id)
  }

  // ---- the condition ----

  predicate Checking(e: Engine, w: nat, id: Id) { w in e.runs && e.runs[w].monitor == id }
  predicate Asking(e: Engine, k: nat, id: Id) { k in e.requests && Target(e.requests[k].op) == id }

  /** A second check of the monitor starts. */
  ghost predicate ChecksTwice(e: Engine, a: Act, id: Id) { a.StartCheck? && a.id == id && exists w :: Checking(e, w, id) }

  /** A second request for the monitor starts. */
  ghost predicate AsksTwice(e: Engine, a: Act, id: Id) { a.StartRequest? && Target(a.op) == id && exists k :: Asking(e, k, id) }

  /** A toggle comes to write the state row between the read and the write of a check. */
  ghost predicate TogglesInside(e: Engine, a: Act, id: Id) {
    a.NextStep? && Asking(e, a.k, id) && ReadyToToggle(e.requests[a.k])
    && exists w :: Checking(e, w, id) && HasRead(e.runs[w].stage)
  }

  /** A check comes to write the state row between the read and the write of a toggle. */
  ghost predicate ChecksInside(e: Engine, a: Act, id: Id) {
    a.NextCall? && Checking(e, a.w, id) && e.runs[a.w].stage.Saving?
    && exists k :: Asking(e, k, id) && ReadyToToggle(e.requests[k])
  }

  /** A check reads the state row that a toggle has written but not logged. */
  ghost predicate ReadsUnlogged(e: Engine, a: Act, id: Id) {
    a.NextCall? && Checking(e, a.w, id) && e.runs[a.w].stage.Getting? && exists k :: Asking(e, k, id) && LateEvent(e.requests[k])
  }

  /** What must not happen: a check inside a toggle costs no more than the check's counters, and an unlogged
      toggle no more than the order of the log. */
  ghost predicate Disturbs(e: Engine, a: Act, id: Id, l: Level) {
    || ChecksTwice(e, a, id) || AsksTwice(e, a, id) || TogglesInside(e, a, id)
    || (!l.Health? && ChecksInside(e, a, id)) || (l.Log? && ReadsUnlogged(e, a, id))
  }

  ghost predicate Undisturbed(e: Engine, acts: seq<Act>, id: Id, l: Level)
    requires Schedule(e, acts)
    decreases |acts|
  {
    acts == [] || (!Disturbs(e, acts[0], id, l) && Undisturbed(Do(e, acts[0]), acts[1..], id, l))
  }

  // ---- what is in progress for a monitor ----

  ghost predicate SingleCheck(e: Engine, id: Id) { forall v, w :: Checking(e, v, id) && Checking(e, w, id) ==> v == w }

  ghost predicate Single(e: Engine, id: Id) {
    SingleCheck(e, id) && forall j, k :: Asking(e, j, id) && Asking(e, k, id) ==> j == k
  }

  ghost function CheckOf(e: Engine, id: Id): Option<Check> {
    if exists w :: Checking(e, w, id) then var w :| Checking(e, w, id); Some(e.runs[w]) else None
  }

  ghost function RequestOf(e: Engine, id: Id): Option<Request> {
    if exists k :: Asking(e, k, id) then var k :| Asking(e, k, id); Some(e.requests[k]) else None
  }

  /** No toggle has left its event outstanding while a check is between read and write. */
  ghost predicate Logged(e: Engine, id: Id) {
    forall k, w :: Asking(e, k, id) && LateEvent(e.requests[k]) && Checking(e, w, id) ==> !HasRead(e.runs[w].stage)
  }

  ghost predicate Steady(e: Engine, id: Id, l: Level) {
    && Single(e, id) && (forall k :: Asking(e, k, id) ==> Traced(e.db, e.requests[k], l))
    && (l.Log? ==> Logged(e, id))
  }

  // ---- the condition keeps things steady ----

  /** Whether a request is traced depends on the rows of its monitor only. */
  lemma TracedFrame(a: Tables, b: Tables, r: Request, l: Level)
    requires Formed(r) && Traced(a, r, l)
    requires var id := Target(r.op);
      && (id in a.monitors <==> id in b.monitors) && (id in a.monitors ==> a.monitors[id] == b.monitors[id])
      && (id in a.states <==> id in b.states)
    requires r.phase.Writing? && r.op.ToggleOp? && !l.Health? ==>
      Target(r.op) in b.states && a.states[Target(r.op)] == b.states[Target(r.op)]
    ensures Traced(b, r, l)
  {}

  lemma CallStaysLogged(e: Engine, w: nat, id: Id)
    requires Tracked(e) && Logged(e, id) && Allowed(e, NextCall(w)) && !ReadsUnlogged(e, NextCall(w), id)
    ensures Logged(Do(e, NextCall(w)), id)
  {
    var c, f := e.runs[w], Do(e, NextCall(w));
    CallKeepsRows(e.db, c);
    forall k, v | Asking(f, k, id) && LateEvent(f.requests[k]) && Checking(f, v, id) ensures !HasRead(f.runs[v].stage) {
      assert Asking(e, k, id) && Checking(e, v, id);
    }
  }

  lemma CallStaysSteady(e: Engine, w: nat, id: Id, l: Level)
    requires Tracked(e) && Steady(e, id, l) && Allowed(e, NextCall(w)) && !Disturbs(e, NextCall(w), id, l)
    ensures Steady(Do(e, NextCall(w)), id, l)
  {
    var f := Do(e, NextCall(w));
    CallKeepsRows(e.db, e.runs[w]);
    assert forall v :: Checking(f, v, id) ==> Checking(e, v, id);
    assert forall k :: Asking(f, k, id) <==> Asking(e, k, id);
    forall k | Asking(f, k, id) ensures Traced(f.db, f.requests[k], l) { CallKeepsTraced(e, w, k, id, l); }
    if l.Log? { CallStaysLogged(e, w, id); }
  }

  lemma CallKeepsTraced(e: Engine, w: nat, k: nat, id: Id, l: Level)
    requires Tracked(e) && Steady(e, id, l) && Allowed(e, NextCall(w)) && Asking(e, k, id)
    requires !l.Health? ==> !ChecksInside(e, NextCall(w), id)
    ensures Traced(Do(e, NextCall(w)).db, e.requests[k], l)
  {
    var c, r := e.runs[w], e.requests[k];
    var t := Advance(e.db, c).0;
    CallKeepsRows(e.db, c);
    if r.phase.Writing? && r.op.ToggleOp? && !l.Health? {
      OnlySavingWrites(e.db, c, id);
      assert c.stage.Saving? && c.monitor == id ==> Checking(e, w, id);
    }
    TracedFrame(e.db, t, r, l);
  }

  lemma OnlySavingWrites(db: Tables, c: Check, id: Id)
    requires !c.stage.Finished? && id in db.states && !(c.stage.Saving? && c.monitor == id)
    ensures id in Advance(db, c).0.states && Advance(db, c).0.states[id] == db.states[id]
  {}

  lemma StepKeepsTraced(e: Engine, k: nat, j: nat, id: Id, l: Level)
    requires Tracked(e) && Steady(e, id, l) && Allowed(e, NextStep(k)) && Asking(Do(e, NextStep(k)), j, id)
    ensures Traced(Do(e, NextStep(k)).db, Do(e, NextStep(k)).requests[j], l)
  {
    var r := e.requests[k];
    var next := Step(e.db, r);
    StaysFormed(e.db, r);
    assert Asking(e, j, id);
    if j != k {
      OtherStepKeepsTraced(e, k, j, id, l);
    } else if Unplaced(r) && Unplaced(next.1) {
      StaysUndone(e.db, r, l);
    }
  }

  lemma StepStaysLogged(e: Engine, k: nat, id: Id)
    requires Tracked(e) && Logged(e, id) && Allowed(e, NextStep(k)) && !TogglesInside(e, NextStep(k), id)
    ensures Logged(Do(e, NextStep(k)), id)
  {
    var r, f := e.requests[k], Do(e, NextStep(k));
    StaysFormed(e.db, r);
    forall j, v | Asking(f, j, id) && LateEvent(f.requests[j]) && Checking(f, v, id) ensures !HasRead(f.runs[v].stage) {
      assert Checking(e, v, id) && Asking(e, j, id);
      if j == k { assert ReadyToToggle(r); }
    }
  }

  lemma StepStaysSteady(e: Engine, k: nat, id: Id, l: Level)
    requires Tracked(e) && Steady(e, id, l) && Allowed(e, NextStep(k)) && !Disturbs(e, NextStep(k), id, l)
    ensures Steady(Do(e, NextStep(k)), id, l)
  {
    var f := Do(e, NextStep(k));
    StaysFormed(e.db, e.requests[k]);
    assert forall j :: Asking(f, j, id) ==> Asking(e, j, id);
    assert forall v :: Checking(f, v, id) <==> Checking(e, v, id);
    forall j | Asking(f, j, id) ensures Traced(f.db, f.requests[j], l) { StepKeepsTraced(e, k, j, id, l); }
    if l.Log? { StepStaysLogged(e, k, id); }
  }

  lemma OtherStepKeepsTraced(e: Engine, k: nat, j: nat, id: Id, l: Level)
    requires Tracked(e) && Steady(e, id, l) && Allowed(e, NextStep(k)) && Asking(e, j, id) && j != k
    ensures Traced(Do(e, NextStep(k)).db, e.requests[j], l)
  {
    var r := e.requests[k];
    assert !Asking(e, k, id);
    StepElsewhere(e.db, r, id);
    TracedFrame(e.db, Step(e.db, r).0, e.requests[j], l);
  }

  lemma StepElsewhere(db: Tables, r: Request, id: Id)
    requires Keyed(db) && Formed(r) && !r.phase.Returned? && Target(r.op) != id
    ensures var t := Step(db, r).0;
      && (id in db.monitors <==> id in t.monitors) && (id in db.monitors ==> db.monitors[id] == t.monitors[id])
      && (id in db.states <==> id in t.states) && (id in db.states ==> db.states[id] == t.states[id])
  {}

  lemma DoStaysSteady(e: Engine, a: Act, id: Id, l: Level)
    requires Tracked(e) && Steady(e, id, l) && Allowed(e, a) && !Disturbs(e, a, id, l)
    ensures Steady(Do(e, a), id, l)
  {
    match a
    case StartCheck(w, jd, _) => StartStaysSteady(e, a, id, l);
    case NextCall(w) => CallStaysSteady(e, w, id, l);
    case StartRequest(k, op) => EntryStaysSteady(e, k, op, id, l);
    case NextStep(k) => StepStaysSteady(e, k, id, l);
  }

  lemma StartStaysSteady(e: Engine, a: Act, id: Id, l: Level)
    requires a.StartCheck? && Steady(e, id, l) && Allowed(e, a) && !ChecksTwice(e, a, id)
    ensures Steady(Do(e, a), id, l)
  {
    var f := Do(e, a);
    assert forall v :: Checking(f, v, id) ==> Checking(e, v, id) || (v == a.w && a.id == id);
    assert forall k :: Asking(f, k, id) <==> Asking(e, k, id);
  }

  lemma EntryStaysSteady(e: Engine, k: nat, op: Op, id: Id, l: Level)
    requires Steady(e, id, l) && Allowed(e, StartRequest(k, op)) && !AsksTwice(e, StartRequest(k, op), id)
    ensures Steady(Do(e, StartRequest(k, op)), id, l)
  {
    var f := Do(e, StartRequest(k, op));
    assert forall j :: Asking(f, j, id) ==> Asking(e, j, id) || (j == k && Target(op) == id);
    assert forall w :: Checking(f, w, id) <==> Checking(e, w, id);
  }

  // ---- settled rows ----

  /** The rows of a monitor as if its request had not begun or had ended, and its check, if it has read the state,
      had made its remaining calls. */
  ghost function SettledBy(mine: Tables, c: Option<Check>, r: Option<Request>): Tables {
    var tidy := if r.Some? then Tidy(mine, r.value) else mine;
    if c.Some? && HasRead(c.value.stage) then Complete((tidy, c.value)) else tidy
  }

  ghost function Settled(e: Engine, id: Id): Tables { SettledBy(Project(e.db, id), CheckOf(e, id), RequestOf(e, id)) }

  lemma OneOp(db: Tables, op: Op)
    ensures Run(db, [op]) == Apply(db, op)
  {
    assert [op][1..] == [];
  }

  lemma NextCheck(mine: Tables, c: Check, r: Option<Request>, l: Level)
    requires !c.stage.Finished? && (r.Some? ==> Formed(r.value) && (l.Log? ==> !LateEvent(r.value) || c.stage.Getting?))
    ensures var t, next := SettledBy(mine, None, r), Advance(mine, c);
      && Advance(t, c).1 == next.1 && Alike(Advance(t, c).0, SettledBy(next.0, None, r), l)
  {
    if r.Some? { TidyCall(mine, c, r.value, l); } else { AlikeSelf(Advance(mine, c).0, l); }
  }

  lemma ChecksAlikeSelf(c: Check, l: Level)
    ensures ChecksAlike(c, c, l)
  {}

  /** The rest of a check settles alike on alike tables. */
  lemma SettlesAlike(a: Tables, b: Tables, c: Check, l: Level)
    requires Alike(a, b, l)
    ensures Alike(Complete((a, c)), Complete((b, c)), l)
  {
    ChecksAlikeSelf(c, l);
    CompleteAlike(a, b, c, c, l);
  }

  /** A call of the check: the first is where it takes place, the others settle nothing new. */
  lemma CallSettles(mine: Tables, c: Check, r: Option<Request>, l: Level)
    requires !c.stage.Finished? && (c.stage.Getting? ==> c == Begin(c.monitor, c.probe))
    requires r.Some? ==> Formed(r.value) && (l.Log? ==> !LateEvent(r.value) || c.stage.Getting?)
    ensures var next := Advance(mine, c);
      var after := SettledBy(next.0, if next.1.stage.Finished? then None else Some(next.1), r);
      Alike(after, Run(SettledBy(mine, Some(c), r), if c.stage.Getting? then [CheckOp(c.monitor, c.probe)] else []), l)
  {
    var t, next := SettledBy(mine, None, r), Advance(mine, c);
    var u := SettledBy(next.0, None, r);
    NextCheck(mine, c, r, l);
    assert Complete((t, c)) == Complete(Advance(t, c)) == Complete((Advance(t, c).0, next.1));
    SettlesAlike(Advance(t, c).0, u, next.1, l);
    assert SettledBy(next.0, if next.1.stage.Finished? then None else Some(next.1), r) == Complete((u, next.1)) by {
      assert !next.1.stage.Getting?;
    }
    if c.stage.Getting? { OneOp(t, CheckOp(c.monitor, c.probe)); }
    AlikeSwap(Complete((t, c)), Complete((u, next.1)), l);
  }

  lemma AlikeSwap(a: Tables, b: Tables, l: Level)
    requires Alike(a, b, l)
    ensures Alike(b, a, l)
  {}

  /** A step of the request beside a check, if any, of the same monitor. */
  lemma StepSettles(mine: Tables, c: Option<Check>, r: Request, l: Level)
    requires Keyed(mine) && Formed(r) && Traced(mine, r, l) && !r.phase.Returned?
    requires c.Some? && HasRead(c.value.stage) ==> Target(r.op) in mine.states && !ReadyToToggle(r)
    ensures var next := Step(mine, r);
      var after := SettledBy(next.0, c, if next.1.phase.Returned? then None else Some(next.1));
      Alike(after, Run(SettledBy(mine, c, Some(r)), if Unplaced(r) && !Unplaced(next.1) then [r.op] else []), l)
  {
    var next := Step(mine, r);
    var t, u := Tidy(mine, r), Tidy(next.0, next.1);
    if !Unplaced(r) {
      assert Finish((mine, r)) == Finish(next) && u == t;
      AlikeSelf(SettledBy(mine, c, Some(r)), l);
    } else if Unplaced(next.1) {
      StaysUndone(mine, r, l);
      AlikeSelf(SettledBy(mine, c, Some(r)), l);
    } else {
      TakesPlace(mine, r, l);
      OneOp(SettledBy(mine, c, Some(r)), r.op);
      if c.Some? && HasRead(c.value.stage) {
        IsAside(mine, r, l);
        AsideCommutes(t, c.value, r.op, l);
        SettlesAlike(u, Apply(t, r.op), c.value, l);
        AlikeTrans(Complete((u, c.value)), Complete((Apply(t, r.op), c.value)), Apply(Complete((t, c.value)), r.op), l);
      }
    }
  }

  /** A request that takes place while a check is between read and write, but not as a toggle that may write the
      state row, leaves the state row alone. */
  lemma IsAside(mine: Tables, r: Request, l: Level)
    requires Keyed(mine) && Formed(r) && Traced(mine, r, l) && Unplaced(r) && !Unplaced(Step(mine, r).1)
    requires Target(r.op) in mine.states && !ReadyToToggle(r)
    ensures Aside(Tidy(mine, r).monitors, r.op)
  {}

  // ---- every step of the engine ----

  lemma CheckIs(e: Engine, w: nat, id: Id)
    requires SingleCheck(e, id) && Checking(e, w, id)
    ensures CheckOf(e, id) == Some(e.runs[w])
  {}

  lemma RequestIs(e: Engine, k: nat, id: Id)
    requires Single(e, id) && Asking(e, k, id)
    ensures RequestOf(e, id) == Some(e.requests[k])
  {}

  lemma SameCheck(e: Engine, f: Engine, id: Id)
    requires SingleCheck(e, id) && SingleCheck(f, id)
    requires forall w :: Checking(e, w, id) <==> Checking(f, w, id)
    requires forall w | Checking(e, w, id) :: e.runs[w] == f.runs[w]
    ensures CheckOf(e, id) == CheckOf(f, id)
  {
    if w :| Checking(e, w, id) {
      CheckIs(e, w, id);
      CheckIs(f, w, id);
    }
  }

  lemma SameRequest(e: Engine, f: Engine, id: Id)
    requires Single(e, id) && Single(f, id)
    requires forall k :: Asking(e, k, id) <==> Asking(f, k, id)
    requires forall k | Asking(e, k, id) :: e.requests[k] == f.requests[k]
    ensures RequestOf(e, id) == RequestOf(f, id)
  {
    if k :| Asking(e, k, id) {
      RequestIs(e, k, id);
      RequestIs(f, k, id);
    }
  }

  /** What the rows of one monitor say about a request is what all tables say. */
  lemma TracedProjects(db: Tables, r: Request, l: Level)
    requires Formed(r) && Traced(db, r, l)
    ensures Traced(Project(db, Target(r.op)), r, l)
  {
    TracedFrame(db, Project(db, Target(r.op)), r, l);
  }

  lemma RequestShape(e: Engine, id: Id, l: Level)
    requires Tracked(e) && Steady(e, id, l)
    ensures RequestOf(e, id).Some? ==>
      var r := RequestOf(e, id).value;
      && Formed(r) && !r.phase.Returned? && Target(r.op) == id && Traced(Project(e.db, id), r, l)
      && exists k :: Asking(e, k, id) && e.requests[k] == r
  {
    if k :| Asking(e, k, id) {
      RequestIs(e, k, id);
      TracedProjects(e.db, e.requests[k], l);
    }
  }

  lemma OwnCallSettles(e: Engine, w: nat, id: Id, l: Level)
    requires Tracked(e) && Steady(e, id, l) && Allowed(e, NextCall(w)) && !Disturbs(e, NextCall(w), id, l) && Checking(e, w, id)
    ensures Alike(Settled(Do(e, NextCall(w)), id), Run(Settled(e, id), OpOf(e, NextCall(w), id)), l)
  {
    var c, f, mine := e.runs[w], Do(e, NextCall(w)), Project(e.db, id);
    DoStaysSteady(e, NextCall(w), id, l);
    FoundRowOwned(e.db, c);
    CallProjects(e.db, c, id);
    CallKeepsRows(e.db, c);
    CheckIs(e, w, id);
    SameRequest(e, f, id);
    RequestShape(e, id, l);
    var next := Advance(mine, c);
    if next.1.stage.Finished? {
      assert forall v :: Checking(f, v, id) ==> Checking(e, v, id) && v != w;
      assert forall v :: !Checking(f, v, id);
    } else {
      CheckIs(f, w, id);
    }
    CallSettles(mine, c, RequestOf(e, id), l);
  }

  lemma OtherCallSettles(e: Engine, w: nat, id: Id, l: Level)
    requires Tracked(e) && Steady(e, id, l) && Allowed(e, NextCall(w)) && !Disturbs(e, NextCall(w), id, l) && !Checking(e, w, id)
    ensures Settled(Do(e, NextCall(w)), id) == Settled(e, id)
  {
    var c, f := e.runs[w], Do(e, NextCall(w));
    DoStaysSteady(e, NextCall(w), id, l);
    FoundRowOwned(e.db, c);
    CallProjects(e.db, c, id);
    CallKeepsRows(e.db, c);
    SameRequest(e, f, id);
    SameCheck(e, f, id);
  }

  /** What is in progress for the monitor after a step of its request. */
  lemma AfterOwnStep(e: Engine, k: nat, id: Id, l: Level)
    requires Tracked(e) && Steady(e, id, l) && Allowed(e, NextStep(k)) && !Disturbs(e, NextStep(k), id, l) && Asking(e, k, id)
    ensures var next, f := Step(Project(e.db, id), e.requests[k]), Do(e, NextStep(k));
      && Project(f.db, id) == next.0 && CheckOf(f, id) == CheckOf(e, id)
      && RequestOf(f, id) == (if next.1.phase.Returned? then None else Some(next.1))
      && next.1 == Step(e.db, e.requests[k]).1
  {
    var r, f := e.requests[k], Do(e, NextStep(k));
    DoStaysSteady(e, NextStep(k), id, l);
    StepProjects(e.db, r, id);
    StaysFormed(e.db, r);
    SameCheck(e, f, id);
    if Step(e.db, r).1.phase.Returned? {
      assert forall j :: Asking(f, j, id) ==> Asking(e, j, id) && j != k;
      assert forall j :: !Asking(f, j, id);
    } else {
      RequestIs(f, k, id);
    }
  }

  /** The check beside the step has its state row, and the step is not that of a toggle about to write. */
  lemma BesideOwnStep(e: Engine, k: nat, id: Id, l: Level)
    requires Tracked(e) && Steady(e, id, l) && Allowed(e, NextStep(k)) && !Disturbs(e, NextStep(k), id, l) && Asking(e, k, id)
    ensures CheckOf(e, id).Some? && HasRead(CheckOf(e, id).value.stage) ==>
      id in Project(e.db, id).states && !ReadyToToggle(e.requests[k])
  {
    if w :| Checking(e, w, id) { CheckIs(e, w, id); }
  }

  lemma OwnStepSettles(e: Engine, k: nat, id: Id, l: Level)
    requires Tracked(e) && Steady(e, id, l) && Allowed(e, NextStep(k)) && !Disturbs(e, NextStep(k), id, l) && Asking(e, k, id)
    ensures Alike(Settled(Do(e, NextStep(k)), id), Run(Settled(e, id), OpOf(e, NextStep(k), id)), l)
  {
    var r, mine := e.requests[k], Project(e.db, id);
    AfterOwnStep(e, k, id, l);
    BesideOwnStep(e, k, id, l);
    RequestIs(e, k, id);
    TracedProjects(e.db, r, l);
    ProjectKeyed(e.db, id);
    StepSettles(mine, CheckOf(e, id), r, l);
  }

  lemma ProjectKeyed(db: Tables, id: Id)
    requires Keyed(db)
    ensures Keyed(Project(db, id))
  {}

  lemma OtherStepSettles(e: Engine, k: nat, id: Id, l: Level)
    requires Tracked(e) && Steady(e, id, l) && Allowed(e, NextStep(k)) && !Disturbs(e, NextStep(k), id, l) && !Asking(e, k, id)
    ensures Settled(Do(e, NextStep(k)), id) == Settled(e, id)
  {
    var r, f := e.requests[k], Do(e, NextStep(k));
    DoStaysSteady(e, NextStep(k), id, l);
    StepProjects(e.db, r, id);
    StaysFormed(e.db, r);
    SameCheck(e, f, id);
    SameRequest(e, f, id);
  }

  lemma StartSettles(e: Engine, a: Act, id: Id, l: Level)
    requires Tracked(e) && Steady(e, id, l) && Allowed(e, a) && !Disturbs(e, a, id, l) && a.StartCheck?
    ensures Settled(Do(e, a), id) == Settled(e, id)
  {
    var f := Do(e, a);
    DoStaysSteady(e, a, id, l);
    SameRequest(e, f, id);
    if a.id == id {
      assert Checking(f, a.w, id);
      CheckIs(f, a.w, id);
    } else {
      assert forall w :: Checking(e, w, id) <==> Checking(f, w, id);
      SameCheck(e, f, id);
    }
  }

  lemma EntrySettles(e: Engine, a: Act, id: Id, l: Level)
    requires Tracked(e) && Steady(e, id, l) && Allowed(e, a) && !Disturbs(e, a, id, l) && a.StartRequest?
    ensures Settled(Do(e, a), id) == Settled(e, id)
  {
    var f := Do(e, a);
    DoStaysSteady(e, a, id, l);
    SameCheck(e, f, id);
    if Target(a.op) == id {
      assert Asking(f, a.k, id);
      RequestIs(f, a.k, id);
    } else {
      assert forall k :: Asking(e, k, id) <==> Asking(f, k, id);
      SameRequest(e, f, id);
    }
  }

  /** What one step adds to the settled rows of a monitor: nothing, or one whole operation. */
  lemma DoSettles(e: Engine, a: Act, id: Id, l: Level)
    requires Tracked(e) && Steady(e, id, l) && Allowed(e, a) && !Disturbs(e, a, id, l)
    ensures Alike(Settled(Do(e, a), id), Run(Settled(e, id), OpOf(e, a, id)), l)
  {
    match a {
      case NextCall(w) =>
        if Checking(e, w, id) { OwnCallSettles(e, w, id, l); return; }
        OtherCallSettles(e, w, id, l);
      case NextStep(k) =>
        if Asking(e, k, id) { OwnStepSettles(e, k, id, l); return; }
        OtherStepSettles(e, k, id, l);
      case StartCheck(_, _, _) => StartSettles(e, a, id, l);
      case StartRequest(_, _) => EntrySettles(e, a, id, l);
    }
    assert OpOf(e, a, id) == [];
    AlikeSelf(Settled(e, id), l);
  }

  lemma {:induction false} RunConcat(db: Tables, xs: seq<Op>, ys: seq<Op>)
    ensures Run(db, xs + ys) == Run(Run(db, xs), ys)
    decreases |xs|
  {
    if xs == [] {
      assert xs + ys == ys;
    } else {
      assert (xs + ys)[1..] == xs[1..] + ys;
      RunConcat(Apply(db, xs[0]), xs[1..], ys);
    }
  }

  lemma {:induction false} ScheduleSettles(e: Engine, acts: seq<Act>, id: Id, l: Level)
    requires Tracked(e) && Steady(e, id, l) && Schedule(e, acts) && Undisturbed(e, acts, id, l)
    ensures Alike(Settled(After(e, acts), id), Run(Settled(e, id), OpsOf(e, acts, id)), l)
    decreases |acts|
  {
    if acts == [] {
      AlikeSelf(Settled(e, id), l);
    } else {
      var f := Do(e, acts[0]);
      var first, rest := OpOf(e, acts[0], id), OpsOf(f, acts[1..], id);
      DoTracked(e, acts[0]);
      DoStaysSteady(e, acts[0], id, l);
      DoSettles(e, acts[0], id, l);
      ScheduleSettles(f, acts[1..], id, l);
      RunAlike(Settled(f, id), Run(Settled(e, id), first), rest, l);
      RunConcat(Settled(e, id), first, rest);
      AlikeTrans(Settled(After(f, acts[1..]), id), Run(Settled(f, id), rest), Run(Settled(e, id), first + rest), l);
    }
  }

  /** Nothing of the monitor is in progress. */
  ghost predicate Quiescent(e: Engine, id: Id) { (forall w :: !Checking(e, w, id)) && forall k :: !Asking(e, k, id) }

  ghost predicate Calm(db: Tables) { DistinctIncidents(db) && Keyed(db) }

  /** Checks and lifecycle operations are serialisable: whatever the interleaving and whichever calls fail, once
      nothing of a monitor is in progress its rows are those of running its own operations one at a time. With
      no more than single requests and checks at a time, and no toggle writing inside a check, this holds of
      the health of the monitor, its incidents, its check rows and its jobs; if no check writes inside a toggle
      either, of all its rows; if no check starts on an unlogged toggle, of the order of its log as well. */
  lemma ChecksSerialise(db: Tables, acts: seq<Act>, id: Id, l: Level)
    requires Calm(db) && Schedule(Engine(db, map[], map[]), acts)
    requires Undisturbed(Engine(db, map[], map[]), acts, id, l) && Quiescent(After(Engine(db, map[], map[]), acts), id)
    ensures Alike(Project(After(Engine(db, map[], map[]), acts).db, id),
                  Run(Project(db, id), OpsOf(Engine(db, map[], map[]), acts, id)), l)
  {
    ScheduleSettles(Engine(db, map[], map[]), acts, id, l);
  }
}
