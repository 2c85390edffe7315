/** The status row sums up the check log, whatever is requested of the service meanwhile, as long as no check
    writes inside a toggle: a toggle writes back the counters that it has read. */
module Counters {
  import opened Common
  import opened Monitors
  import opened Store
  import opened CheckRun
  import opened World
  import opened Projection
  import opened Requests
  import opened Interleaving
  import opened Serial
  import opened SoleCheck
  import opened Pairing
  import opened Audit

  /** The checks of the monitor meet no fault. */
  ghost predicate Faultless(e: Engine, acts: seq<Act>, id: Id)
    requires Schedule(e, acts)
    decreases |acts|
  {
    acts == [] ||
    ((acts[0].StartCheck? && acts[0].id == id ==> acts[0].probe.fails == {}) && Faultless(Do(e, acts[0]), acts[1..], id))
  }

  /** No check of the monitor writes the state row between the read and the write of a toggle. */
  ghost predicate NeverInside(e: Engine, acts: seq<Act>, id: Id)
    requires Schedule(e, acts)
    decreases |acts|
  {
    acts == [] || (!ChecksInside(e, acts[0], id) && NeverInside(Do(e, acts[0]), acts[1..], id))
  }

  // ---- what the rows say ----

  /** The run has written its check row. */
  predicate HasRecorded(c: Check) { HasRead(c.stage) && !c.stage.Recording? }

  predicate RecordedBy(c: Option<Check>) { c.Some? && HasRecorded(c.value) }

  /** The check log without the row of the check in progress. */
  function Old(mine: Tables, c: Option<Check>): seq<CheckRow> {
    if RecordedBy(c) && mine.checks != [] then mine.checks[..|mine.checks| - 1] else mine.checks
  }

  function RowOf(c: Check): CheckRow
    requires HasRead(c.stage)
  {
    CheckRow(c.probe.checkId, c.monitor, c.probe.success, TransitionOf(StatusOf(c.stage), c.probe).to, c.probe.at)
  }

  /** The run goes on to its end: what it has read or found as down has an open incident. */
  ghost predicate GoesThrough(mine: Tables, c: Check, id: Id) {
    && c.monitor == id && Coherent(c) && c.probe.fails == {}
    && (CountsOn(c) ==> FindOpen(mine.incidents, id).Some?)
    && (c.stage.Concluding? || c.stage.Resolving? ==> Resolvable(mine.incidents, c.stage.found))
  }

  ghost predicate OnCourse(mine: Tables, c: Option<Check>, id: Id) {
    && (RowIsDown(mine, id) ==> FindOpen(mine.incidents, id).Some? || (c.Some? && c.value.stage.Saving?))
    && (c.Some? ==> GoesThrough(mine, c.value, id))
  }

  ghost predicate Summed(mine: Tables, c: Option<Check>, id: Id) {
    && (id in mine.states ==> Summarises(mine.states[id], Old(mine, c)))
    && (id !in mine.states ==> mine.checks == [])
    && (c.Some? && HasRead(c.value.stage) ==> id in mine.states && Summarises(StatusOf(c.value.stage), Old(mine, c)))
    && (RecordedBy(c) ==> mine.checks != [] && mine.checks[|mine.checks| - 1] == RowOf(c.value))
  }

  // ---- a check's call ----

  lemma OpenStays(incidents: seq<Incident>, i: Incident, id: Id)
    requires i.monitor == id && i.resolvedAt == None
    ensures FindOpen(incidents + [i], id).Some?
  {
    FindOpenMeans(incidents + [i], id);
    assert (incidents + [i])[|incidents|] == i;
  }

  lemma CallStaysOnCourse(mine: Tables, c: Check, id: Id)
    requires OnCourse(mine, Some(c), id) && !c.stage.Finished?
    ensures OnCourse(Advance(mine, c).0, Going(Advance(mine, c).1), id)
  {
    StaysCoherent(mine, c);
    match c.stage
    case Opening(_) => OpenStays(mine.incidents, NewIncident(id, c.probe), id);
    case Finding(_) => FoundIsResolvable(mine.incidents, id);
    case Resolving(_, _) => assert Advance(mine, c).1.stage == Saving(c.stage.status);
    case Saving(_) => assert Advance(mine, c).0.incidents == mine.incidents;
    case _ =>
  }

  /** A run without faults that finds what it resolves ends with its save, or where there is no state row. */
  lemma EndsSaved(mine: Tables, c: Check, id: Id)
    requires OnCourse(mine, Some(c), id) && !c.stage.Finished? && Advance(mine, c).1.stage.Finished?
    ensures c.stage.Saving? || (c.stage.Getting? && id !in mine.states)
  {}

  lemma NextSummarises(s: Status, checks: seq<CheckRow>, c: Check)
    requires c.stage == Saving(s) && Summarises(s, checks)
    ensures Summarises(NextStatus(s, c.probe), checks + [RowOf(c)])
  {
    TrailingAppend(checks, RowOf(c), true);
    TrailingAppend(checks, RowOf(c), false);
  }

  lemma SavingSums(mine: Tables, c: Check, id: Id)
    requires OnCourse(mine, Some(c), id) && Summed(mine, Some(c), id) && c.stage.Saving?
    ensures Summed(Advance(mine, c).0, None, id)
  {
    var t := Advance(mine, c).0;
    NextSummarises(c.stage.status, Old(mine, Some(c)), c);
    assert mine.checks == Old(mine, Some(c)) + [RowOf(c)];
  }

  lemma RecordingSums(mine: Tables, c: Check, id: Id)
    requires OnCourse(mine, Some(c), id) && Summed(mine, Some(c), id) && c.stage.Recording?
    ensures var next := Advance(mine, c);
      Summed(next.0, Going(next.1), id) && Old(next.0, Going(next.1)) == Old(mine, Some(c))
  {
    var next := Advance(mine, c);
    assert next.0.checks == mine.checks + [RowOf(c)];
    assert next.0.checks[..|mine.checks|] == mine.checks;
  }

  /** The calls that write neither the check row nor the state row. */
  lemma OtherCallSums(mine: Tables, c: Check, id: Id)
    requires OnCourse(mine, Some(c), id) && Summed(mine, Some(c), id)
    requires !c.stage.Finished? && !c.stage.Recording? && !c.stage.Saving?
    ensures var next := Advance(mine, c);
      Summed(next.0, Going(next.1), id) && Old(next.0, Going(next.1)) == Old(mine, Some(c))
  {
    var next := Advance(mine, c);
    if next.1.stage.Finished? { EndsSaved(mine, c, id); }
    assert next.0.checks == mine.checks && next.0.states == mine.states;
  }

  lemma CallSums(mine: Tables, c: Check, id: Id)
    requires OnCourse(mine, Some(c), id) && Summed(mine, Some(c), id) && !c.stage.Finished?
    ensures Summed(Advance(mine, c).0, Going(Advance(mine, c).1), id)
    ensures !c.stage.Saving? ==> Old(Advance(mine, c).0, Going(Advance(mine, c).1)) == Old(mine, Some(c))
  {
    match c.stage
    case Recording(_) => RecordingSums(mine, c, id);
    case Saving(_) => SavingSums(mine, c, id);
    case _ => OtherCallSums(mine, c, id);
  }

  // ---- a request's step ----

  /** The status that the request is about to write sums up the log; a creation about to write it is the first. */
  ghost predicate Carries(mine: Tables, c: Option<Check>, r: Request, id: Id) {
    r.phase.Writing? ==>
      && Summarises(r.phase.status, Old(mine, c)) && r.phase.status.state != Down
      && (r.op.ToggleOp? || r.op.CreateOp?) && (r.op.ToggleOp? ==> id in mine.states)
      && (r.op.CreateOp? ==> id in mine.monitors && id !in mine.states)
  }

  lemma CarriesFrame(a: Tables, c: Option<Check>, b: Tables, d: Option<Check>, r: Request, id: Id)
    requires Carries(a, c, r, id) && Old(b, d) == Old(a, c)
    requires (id in a.states <==> id in b.states) && (id in a.monitors ==> id in b.monitors)
    ensures Carries(b, d, r, id)
  {}

  /** A step writes no check row and no incident, and the state row only when it is about to. */
  lemma StepWrites(mine: Tables, r: Request)
    requires Keyed(mine) && Settling(mine, r)
    ensures var t := Step(mine, r).0;
      && t.checks == mine.checks && t.incidents == mine.incidents && mine.monitors.Keys <= t.monitors.Keys
      && (t.states == mine.states || (r.phase.Writing? && t.states == mine.states[Target(r.op) := r.phase.status]))
  {
    StepKeepsRows(mine, r);
  }

  lemma StepSums(mine: Tables, c: Option<Check>, r: Request, id: Id)
    requires Summed(mine, c, id) && OnCourse(mine, c, id) && Carries(mine, c, r, id)
    requires Keyed(mine) && Settling(mine, r) && Target(r.op) == id
    ensures var t := Step(mine, r).0; Summed(t, c, id) && OnCourse(t, c, id) && Old(t, c) == Old(mine, c)
  {
    StepWrites(mine, r);
  }

  lemma ToggledSummarises(s: Status, checks: seq<CheckRow>, op: Op)
    requires op.ToggleOp? && Summarises(s, checks)
    ensures Summarises(Toggled(op, s), checks) && Toggled(op, s).state != Down
  {}

  lemma StepCarries(mine: Tables, c: Option<Check>, r: Request, id: Id)
    requires Summed(mine, c, id) && Carries(mine, c, r, id)
    requires Keyed(mine) && Settling(mine, r) && Target(r.op) == id
    ensures Carries(Step(mine, r).0, c, Step(mine, r).1, id)
  {
    StepWrites(mine, r);
    if Step(mine, r).1.phase.Writing? {
      if r.phase.Reading? {
        ToggledSummarises(mine.states[id], Old(mine, c), r.op);
      } else {
        InsertCarries(mine, c, r, id);
      }
    }
  }

  /** A creation that inserts its monitor row finds neither a state row nor checks. */
  lemma InsertCarries(mine: Tables, c: Option<Check>, r: Request, id: Id)
    requires Summed(mine, c, id) && Keyed(mine) && Settling(mine, r) && Target(r.op) == id
    requires !r.phase.Reading? && Step(mine, r).1.phase.Writing?
    ensures Carries(Step(mine, r).0, c, Step(mine, r).1, id)
  {
    assert r.phase.Storing? && r.op.CreateOp? && id !in mine.monitors && id !in mine.states;
    assert mine.checks == [] && Old(mine, c) == [];
  }

  // ---- runs ----

  ghost predicate Carrying(e: Engine, id: Id) {
    forall k :: Asking(e, k, id) ==> Carries(Project(e.db, id), CheckOf(e, id), e.requests[k], id)
  }

  /** At most one creation is about to write the state row. */
  ghost predicate OneCreation(e: Engine, id: Id) {
    forall j, k :: Asking(e, j, id) && Asking(e, k, id) && Creates(e.requests[j]) && Creates(e.requests[k]) ==> j == k
  }

  ghost predicate InSum(e: Engine, id: Id) {
    && Sole(e, id) && OnCourse(Project(e.db, id), CheckOf(e, id), id) && Summed(Project(e.db, id), CheckOf(e, id), id)
    && Carrying(e, id) && OneCreation(e, id)
  }

  /** A creation that has inserted its monitor row and is about to write the state row. */
  predicate Creates(r: Request) { r.op.CreateOp? && r.phase.Writing? }

  /** At the save of a check nothing of the monitor is about to write the state row. */
  lemma SaveIsAlone(e: Engine, w: nat, k: nat, id: Id)
    requires InSum(e, id) && Checking(e, w, id) && e.runs[w].stage.Saving? && !ChecksInside(e, NextCall(w), id)
    requires Asking(e, k, id)
    ensures !e.requests[k].phase.Writing?
  {
    CheckIs(e, w, id);
    assert Carries(Project(e.db, id), CheckOf(e, id), e.requests[k], id);
  }

  lemma OwnCallCarries(e: Engine, w: nat, k: nat, id: Id)
    requires InSum(e, id) && Allowed(e, NextCall(w)) && Checking(e, w, id) && !ChecksInside(e, NextCall(w), id)
    requires Asking(e, k, id)
    ensures Carries(Project(Do(e, NextCall(w)).db, id), CheckOf(Do(e, NextCall(w)), id), e.requests[k], id)
  {
    var c, f, mine := e.runs[w], Do(e, NextCall(w)), Project(e.db, id);
    OwnCall(e, w, id);
    CallKeepsRows(e.db, c);
    if c.stage.Saving? {
      SaveIsAlone(e, w, k, id);
    } else {
      CallSums(mine, c, id);
      CarriesFrame(mine, CheckOf(e, id), Project(f.db, id), CheckOf(f, id), e.requests[k], id);
    }
  }

  lemma OwnCallSums(e: Engine, w: nat, id: Id)
    requires InSum(e, id) && Allowed(e, NextCall(w)) && Checking(e, w, id) && !ChecksInside(e, NextCall(w), id)
    ensures InSum(Do(e, NextCall(w)), id)
  {
    var f := Do(e, NextCall(w));
    DoStaysSole(e, NextCall(w), id);
    OwnCall(e, w, id);
    CallStaysOnCourse(Project(e.db, id), e.runs[w], id);
    CallSums(Project(e.db, id), e.runs[w], id);
    assert forall k :: Asking(f, k, id) <==> Asking(e, k, id);
    forall k | Asking(f, k, id) ensures Carries(Project(f.db, id), CheckOf(f, id), f.requests[k], id) {
      OwnCallCarries(e, w, k, id);
    }
  }

  /** A request that is about to write the state row keeps carrying the counters beside a step of another one. */
  lemma OthersCarry(e: Engine, k: nat, j: nat, id: Id)
    requires InSum(e, id) && Allowed(e, NextStep(k)) && Asking(e, k, id) && Asking(e, j, id) && j != k
    ensures Carries(Step(Project(e.db, id), e.requests[k]).0, CheckOf(e, id), e.requests[j], id)
  {
    var mine, c, r := Project(e.db, id), CheckOf(e, id), e.requests[k];
    ProjectKeyed(e.db, id);
    StepWrites(mine, r);
    StepSums(mine, c, r, id);
    if e.requests[j].phase.Writing? {
      WritesBeside(e, k, j, id);
      CarriesFrame(mine, c, Step(mine, r).0, c, e.requests[j], id);
    }
  }

  lemma WritesBeside(e: Engine, k: nat, j: nat, id: Id)
    requires InSum(e, id) && Asking(e, k, id) && Asking(e, j, id) && j != k && e.requests[j].phase.Writing?
    ensures e.requests[k].phase.Writing? ==> id in Project(e.db, id).states
  {
    assert Carries(Project(e.db, id), CheckOf(e, id), e.requests[k], id);
    assert Carries(Project(e.db, id), CheckOf(e, id), e.requests[j], id);
  }

  lemma StepStaysOneCreation(e: Engine, k: nat, id: Id)
    requires InSum(e, id) && Allowed(e, NextStep(k)) && Asking(e, k, id)
    ensures OneCreation(Do(e, NextStep(k)), id)
  {
    var f := Do(e, NextStep(k));
    StaysFormed(e.db, e.requests[k]);
    assert forall j :: Asking(f, j, id) ==> Asking(e, j, id);
    forall j | Asking(e, j, id) && Creates(e.requests[j]) ensures id in e.db.monitors {
      assert Carries(Project(e.db, id), CheckOf(e, id), e.requests[j], id);
    }
  }

  lemma StepInSum(e: Engine, k: nat, id: Id)
    requires InSum(e, id) && Allowed(e, NextStep(k)) && Asking(e, k, id)
    ensures InSum(Do(e, NextStep(k)), id)
  {
    var r, f, mine, c := e.requests[k], Do(e, NextStep(k)), Project(e.db, id), CheckOf(e, id);
    DoStaysSole(e, NextStep(k), id);
    AnyStep(e, k, id);
    ProjectKeyed(e.db, id);
    StepSums(mine, c, r, id);
    StepCarries(mine, c, r, id);
    StepStaysOneCreation(e, k, id);
    assert forall j :: Asking(f, j, id) ==> Asking(e, j, id);
    forall j | Asking(f, j, id) ensures Carries(Project(f.db, id), CheckOf(f, id), f.requests[j], id) {
      if j != k { OthersCarry(e, k, j, id); }
    }
  }

  /** Nothing changes if the rows, the check and the requests about to write are those of before. */
  lemma SameView(e: Engine, f: Engine, id: Id)
    requires InSum(e, id) && Sole(f, id) && Project(f.db, id) == Project(e.db, id) && CheckOf(f, id) == CheckOf(e, id)
    requires forall k | Asking(f, k, id) && f.requests[k].phase.Writing? :: Asking(e, k, id) && e.requests[k] == f.requests[k]
    ensures InSum(f, id)
  {
    forall k | Asking(f, k, id) ensures Carries(Project(f.db, id), CheckOf(f, id), f.requests[k], id) {
      if f.requests[k].phase.Writing? { assert Asking(e, k, id); }
    }
  }

  lemma BeginSums(e: Engine, a: Act, id: Id)
    requires InSum(e, id) && Allowed(e, a) && a.StartCheck? && a.id == id && !ChecksTwice(e, a, id) && a.probe.fails == {}
    ensures InSum(Do(e, a), id)
  {
    var f := Do(e, a);
    DoStaysSole(e, a, id);
    AnyStart(e, a, id);
    assert Old(Project(f.db, id), CheckOf(f, id)) == Old(Project(e.db, id), CheckOf(e, id));
    forall k | Asking(f, k, id) ensures Carries(Project(f.db, id), CheckOf(f, id), f.requests[k], id) {
      assert Asking(e, k, id);
      CarriesFrame(Project(e.db, id), CheckOf(e, id), Project(f.db, id), CheckOf(f, id), e.requests[k], id);
    }
    assert forall k :: Asking(f, k, id) <==> Asking(e, k, id);
  }

  lemma OtherInSum(e: Engine, a: Act, id: Id)
    requires InSum(e, id) && Allowed(e, a) && !ChecksTwice(e, a, id) && !(a.StartCheck? && a.id == id)
    requires !(a.NextCall? && Checking(e, a.w, id)) && !(a.NextStep? && Asking(e, a.k, id))
    ensures InSum(Do(e, a), id)
  {
    var f := Do(e, a);
    DoStaysSole(e, a, id);
    match a {
      case NextCall(w) => OtherCall(e, w, id);
      case NextStep(k) => AnyStep(e, k, id); StaysFormed(e.db, e.requests[k]);
      case _ => AnyStart(e, a, id);
    }
    SameView(e, f, id);
  }

  lemma DoInSum(e: Engine, a: Act, id: Id)
    requires InSum(e, id) && Allowed(e, a) && !ChecksTwice(e, a, id) && !ChecksInside(e, a, id)
    requires a.StartCheck? && a.id == id ==> a.probe.fails == {}
    ensures InSum(Do(e, a), id)
  {
    if a.NextCall? && Checking(e, a.w, id) {
      OwnCallSums(e, a.w, id);
    } else if a.NextStep? && Asking(e, a.k, id) {
      StepInSum(e, a.k, id);
    } else if a.StartCheck? && a.id == id {
      BeginSums(e, a, id);
    } else {
      OtherInSum(e, a, id);
    }
  }

  lemma {:induction false} RunInSum(e: Engine, acts: seq<Act>, id: Id)
    requires InSum(e, id) && Schedule(e, acts)
    requires OneAtATime(e, acts, id) && Faultless(e, acts, id) && NeverInside(e, acts, id)
    ensures InSum(After(e, acts), id)
    decreases |acts|
  {
    if acts == [] {
    } else {
      DoInSum(e, acts[0], id);
      RunInSum(Do(e, acts[0]), acts[1..], id);
    }
  }

  /** In every interleaving in which no second check of the monitor starts, its checks meet no fault, and none writes
      inside a toggle: whenever no check is in progress the status row sums up the check log. Requests may overlap
      and fail, and toggles write inside checks. */
  lemma CountersSum(acts: seq<Act>, id: Id)
    requires Schedule(START, acts) && CheckOf(After(START, acts), id) == None
    requires OneAtATime(START, acts, id) && Faultless(START, acts, id) && NeverInside(START, acts, id)
    ensures var db := After(START, acts).db;
      id in db.states ==> Summarises(db.states[id], Filter(db.checks, ChecksOf(id)))
  {
    RunInSum(START, acts, id);
  }
}
