/** Each recovery that a monitor announces directly follows the outage it ends, whatever is requested of the
    service meanwhile. */
module Pairing {
  import opened Common
  import opened Monitors
  import opened Store
  import opened CheckRun
  import opened Projection
  import opened Text
  import opened Requests
  import opened Interleaving
  import opened Serial
  import opened SoleCheck

  /** Every recovery is immediately preceded by the outage of the same incident. */
  ghost predicate Paired(jobs: seq<NotifyJob>) {
    forall k | 0 <= k < |jobs| && jobs[k].kind == MonitorRecovered ::
      k > 0 && jobs[k - 1].kind == MonitorDown && jobs[k - 1].incident == jobs[k].incident
  }

  /** The incident would start later than all others of the monitor. */
  ghost predicate Later(incidents: seq<Incident>, id: Id, at: Stamp) {
    forall i | i in incidents :: i.monitor == id ==> TextLess(i.startedAt, at)
  }

  /** Checks of the monitor notify and meet no fault, and one that opens an incident starts it later than its
      predecessors. */
  ghost predicate Loud(e: Engine, a: Act, id: Id) {
    && (a.StartCheck? && a.id == id ==> a.probe.Notifies() && a.probe.fails == {})
    && (a.NextCall? && Checking(e, a.w, id) && e.runs[a.w].stage.Opening? ==>
          Later(e.db.incidents, id, e.runs[a.w].probe.at))
  }

  ghost predicate AlwaysLoud(e: Engine, acts: seq<Act>, id: Id)
    requires Schedule(e, acts)
    decreases |acts|
  {
    acts == [] || (Loud(e, acts[0], id) && AlwaysLoud(Do(e, acts[0]), acts[1..], id))
  }

  // ---- the rows of the monitor ----

  /** The last job is the outage of the last incident, which is still open. */
  ghost predicate LastOutage(mine: Tables, id: Id) {
    && |mine.outbox| > 0 && |mine.incidents| > 0
    && var j, i := mine.outbox[|mine.outbox| - 1], mine.incidents[|mine.incidents| - 1];
      j.kind == MonitorDown && j.incident == i.id && IsOpen(i, id)
  }

  ghost predicate Rising(incidents: seq<Incident>) {
    forall i, j | 0 <= i < j < |incidents| :: TextLess(incidents[i].startedAt, incidents[j].startedAt)
  }

  predicate RowIsDown(mine: Tables, id: Id) { id in mine.states && mine.states[id].state == Down }

  /** The run counts on an open outage: it has read Down and not resolved yet, or is to leave the monitor down. */
  predicate CountsOn(c: Check) {
    match c.stage
    case Getting => false
    case Finished(_) => false
    case Saving(s) => TransitionOf(s, c.probe).to == Down
    case _ => TransitionOf(StatusOf(c.stage), c.probe).from == Down
  }

  function StatusOf(stage: Stage): Status
    requires !stage.Getting? && !stage.Finished?
  {
    match stage
    case Concluding(s, _) => s
    case Resolving(s, _) => s
    case _ => stage.status
  }

  ghost predicate Hears(mine: Tables, c: Check, id: Id) {
    && c.monitor == id && Coherent(c) && c.probe.Notifies() && c.probe.fails == {}
    && (CountsOn(c) ==> LastOutage(mine, id))
    && (c.stage.Concluding? || c.stage.Resolving? ==>
          |mine.incidents| > 0 && c.stage.found == mine.incidents[|mine.incidents| - 1].id)
  }

  ghost predicate Kept(mine: Tables, c: Option<Check>, id: Id) {
    && DistinctIds(mine.incidents) && Rising(mine.incidents) && Paired(mine.outbox)
    && (forall i | i in mine.incidents :: i.monitor == id)
    && (RowIsDown(mine, id) ==> LastOutage(mine, id) || (c.Some? && c.value.stage.Saving?))
    && (c.Some? ==> Hears(mine, c.value, id))
  }

  function Going(c: Check): Option<Check> { if c.stage.Finished? then None else Some(c) }

  /** With rising starts the lookup finds the last incident if that one is open. */
  lemma FindsLast(mine: Tables, id: Id)
    requires Rising(mine.incidents) && LastOutage(mine, id)
    ensures FindOpen(mine.incidents, id) == Some(|mine.incidents| - 1)
  {
    FindOpenMeans(mine.incidents, id);
  }

  lemma ResolveKeepsOrder(xs: seq<Incident>, found: Id, at: Stamp, event: Id, id: Id)
    requires DistinctIds(xs) && Rising(xs) && forall i | i in xs :: i.monitor == id
    ensures var ys := ResolveRows(xs, found, at, event);
      DistinctIds(ys) && Rising(ys) && forall i | i in ys :: i.monitor == id
  {
    var ys := ResolveRows(xs, found, at, event);
    assert forall k | 0 <= k < |xs| :: xs[k] in xs && ys[k].startedAt == xs[k].startedAt && ys[k].monitor == xs[k].monitor;
  }

  lemma PairAppend(jobs: seq<NotifyJob>, j: NotifyJob)
    requires Paired(jobs)
    requires j.kind == MonitorRecovered ==>
      |jobs| > 0 && jobs[|jobs| - 1].kind == MonitorDown && jobs[|jobs| - 1].incident == j.incident
    ensures Paired(jobs + [j])
  {}

  lemma OpeningKeeps(mine: Tables, c: Check, id: Id)
    requires Kept(mine, Some(c), id) && c.stage.Opening?
    requires !HasId(mine.incidents, c.probe.incidentId) && Later(mine.incidents, id, c.probe.at)
    ensures Kept(Advance(mine, c).0, Some(Advance(mine, c).1), id)
  {
    var p, t := c.probe, Advance(mine, c).0;
    var j := NotifyJob(MonitorDown, id, p.incidentId, p.incidentEventId);
    assert t.incidents == mine.incidents + [NewIncident(id, p)] && t.outbox == mine.outbox + [j] && t.states == mine.states;
    PairAppend(mine.outbox, j);
    AppendGrows(mine.incidents, NewIncident(id, p));
    assert forall k | 0 <= k < |mine.incidents| :: mine.incidents[k] in mine.incidents;
    assert LastOutage(t, id);
  }

  lemma FindingKeeps(mine: Tables, c: Check, id: Id)
    requires Kept(mine, Some(c), id) && c.stage.Finding?
    ensures Kept(Advance(mine, c).0, Some(Advance(mine, c).1), id)
  {
    FindsLast(mine, id);
  }

  lemma ResolvingKeeps(mine: Tables, c: Check, id: Id)
    requires Kept(mine, Some(c), id) && c.stage.Resolving?
    ensures Kept(Advance(mine, c).0, Some(Advance(mine, c).1), id)
  {
    var p, t, n := c.probe, Advance(mine, c).0, |mine.incidents|;
    assert Resolvable(mine.incidents, c.stage.found) by { assert mine.incidents[n - 1].id == c.stage.found; }
    ResolveKeepsOrder(mine.incidents, c.stage.found, p.at, p.incidentEventId, id);
    PairAppend(mine.outbox, NotifyJob(MonitorRecovered, id, c.stage.found, p.incidentEventId));
    assert t.states == mine.states && Advance(mine, c).1.stage == Saving(c.stage.status);
  }

  lemma SavingKeeps(mine: Tables, c: Check, id: Id)
    requires Kept(mine, Some(c), id) && c.stage.Saving?
    ensures Kept(Advance(mine, c).0, None, id)
  {
    var t := Advance(mine, c).0;
    assert t.states[id].state == TransitionOf(c.stage.status, c.probe).to;
    assert t.incidents == mine.incidents && t.outbox == mine.outbox;
  }

  /** The calls that touch neither incidents nor jobs nor the state row. */
  lemma OtherCallKeeps(mine: Tables, c: Check, id: Id)
    requires Kept(mine, Some(c), id) && !c.stage.Finished?
    requires c.stage.Getting? || c.stage.Recording? || c.stage.Changing? || c.stage.Announcing? || c.stage.Concluding?
    ensures Kept(Advance(mine, c).0, Going(Advance(mine, c).1), id)
  {
    var t := Advance(mine, c).0;
    StaysCoherent(mine, c);
    assert t.incidents == mine.incidents && t.outbox == mine.outbox && t.states == mine.states;
  }

  lemma CallKeeps(mine: Tables, c: Check, id: Id)
    requires Kept(mine, Some(c), id) && !c.stage.Finished?
    requires c.stage.Opening? ==> !HasId(mine.incidents, c.probe.incidentId) && Later(mine.incidents, id, c.probe.at)
    ensures Kept(Advance(mine, c).0, Going(Advance(mine, c).1), id)
  {
    match c.stage
    case Opening(_) => OpeningKeeps(mine, c, id);
    case Finding(_) => FindingKeeps(mine, c, id);
    case Resolving(_, _) => ResolvingKeeps(mine, c, id);
    case Saving(_) => SavingKeeps(mine, c, id);
    case _ => OtherCallKeeps(mine, c, id);
  }

  /** No request is about to write Down. */
  ghost predicate Mild(e: Engine) {
    forall k | k in e.requests && e.requests[k].phase.Writing? :: e.requests[k].phase.status.state != Down
  }

  lemma StepStaysMild(db: Tables, r: Request)
    requires Formed(r) && !r.phase.Returned?
    ensures Step(db, r).1.phase.Writing? ==> Step(db, r).1.phase.status.state != Down
  {}

  lemma StepKeeps(mine: Tables, c: Option<Check>, r: Request, id: Id)
    requires Kept(mine, c, id) && Keyed(mine) && Settling(mine, r) && Target(r.op) == id
    requires r.phase.Writing? ==> r.phase.status.state != Down
    ensures Kept(Step(mine, r).0, c, id)
  {
    StepKeepsRows(mine, r);
    var t := Step(mine, r).0;
    assert t.states == mine.states || (r.phase.Writing? && t.states == mine.states[id := r.phase.status]);
  }

  // ---- runs ----

  ghost predicate Harmony(e: Engine, id: Id) {
    Sole(e, id) && Mild(e) && Kept(Project(e.db, id), CheckOf(e, id), id)
  }

  lemma ProjectHasId(db: Tables, id: Id, incident: Id)
    ensures HasId(Project(db, id).incidents, incident) ==> HasId(db.incidents, incident)
    ensures forall at :: Later(db.incidents, id, at) ==> Later(Project(db, id).incidents, id, at)
  {
    var mine := Project(db, id).incidents;
    FilterHas(db.incidents, IncidentsOf(id));
    if HasId(mine, incident) {
      var k :| 0 <= k < |mine| && mine[k].id == incident;
      assert mine[k] in db.incidents;
      var j :| 0 <= j < |db.incidents| && db.incidents[j] == mine[k];
    }
  }

  lemma OwnCallInHarmony(e: Engine, w: nat, id: Id)
    requires Harmony(e, id) && Allowed(e, NextCall(w)) && Checking(e, w, id) && Loud(e, NextCall(w), id)
    ensures Kept(Project(Do(e, NextCall(w)).db, id), CheckOf(Do(e, NextCall(w)), id), id)
  {
    var c := e.runs[w];
    OwnCall(e, w, id);
    SoleShape(e, id);
    ProjectHasId(e.db, id, c.probe.incidentId);
    CallKeeps(Project(e.db, id), c, id);
  }

  lemma StepInHarmony(e: Engine, k: nat, id: Id)
    requires Harmony(e, id) && Allowed(e, NextStep(k))
    ensures Kept(Project(Do(e, NextStep(k)).db, id), CheckOf(Do(e, NextStep(k)), id), id)
  {
    var r := e.requests[k];
    AnyStep(e, k, id);
    if Asking(e, k, id) {
      ProjectKeyed(e.db, id);
      StepKeeps(Project(e.db, id), CheckOf(e, id), r, id);
    }
  }

  lemma DoStaysMild(e: Engine, a: Act)
    requires Tracked(e) && Mild(e) && Allowed(e, a)
    ensures Mild(Do(e, a))
  {
    if a.NextStep? { StepStaysMild(e.db, e.requests[a.k]); }
  }

  lemma DoInHarmony(e: Engine, a: Act, id: Id)
    requires Harmony(e, id) && Allowed(e, a) && !ChecksTwice(e, a, id) && Loud(e, a, id)
    ensures Harmony(Do(e, a), id)
  {
    DoStaysSole(e, a, id);
    DoStaysMild(e, a);
    match a
    case NextCall(w) => if Checking(e, w, id) { OwnCallInHarmony(e, w, id); } else { OtherCall(e, w, id); }
    case NextStep(k) => StepInHarmony(e, k, id);
    case _ => AnyStart(e, a, id);
  }

  lemma {:induction false} RunInHarmony(e: Engine, acts: seq<Act>, id: Id)
    requires Harmony(e, id) && Schedule(e, acts) && OneAtATime(e, acts, id) && AlwaysLoud(e, acts, id)
    ensures Harmony(After(e, acts), id)
    decreases |acts|
  {
    if acts == [] {
    } else {
      DoInHarmony(e, acts[0], id);
      RunInHarmony(Do(e, acts[0]), acts[1..], id);
    }
  }

  /** At every point of every interleaving in which no second check of the monitor starts, its checks notify and meet
      no fault, and its incidents start one later than the other: each recovery among its jobs directly follows
      the outage of the same incident. Requests may overlap, fail, and write inside checks as they like. */
  lemma RecoveriesArePaired(acts: seq<Act>, id: Id)
    requires Schedule(START, acts) && OneAtATime(START, acts, id) && AlwaysLoud(START, acts, id)
    ensures Paired(Filter(After(START, acts).db.outbox, JobsFor(id)))
  {
    RunInHarmony(START, acts, id);
  }
}
