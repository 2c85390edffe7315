/** The incident balance of every interleaving, call by call: how many incidents of a monitor are open, whatever
    requests write inside its checks and whichever calls fail. */
module Balance {
  import opened Common
  import opened Monitors
  import opened Store
  import opened CheckRun
  import opened Projection
  import opened Requests
  import opened Interleaving
  import opened Serial
  import opened SoleCheck
  import opened Pairing
  import opened Ledger
  import Notifications
  import Service = ServiceSpec

  /** How many steps of a run, each looked at together with the engine it meets, satisfy `p`. */
  ghost function Steps(e: Engine, acts: seq<Act>, p: (Engine, Act) -> bool): nat
    requires Schedule(e, acts)
    decreases |acts|
  {
    if acts == [] then 0 else (if p(e, acts[0]) then 1 else 0) + Steps(Do(e, acts[0]), acts[1..], p)
  }

  // ---- the four ways in which open incidents and the state row drift apart ----

  predicate Saves(e: Engine, a: Act, id: Id) { a.NextCall? && Checking(e, a.w, id) && e.runs[a.w].stage.Saving? }

  /** A check that has opened an incident fails to write the state row. */
  function OpensUnsaved(id: Id): (Engine, Act) -> bool {
    (e: Engine, a: Act) => Saves(e, a, id) && UpsertState in e.runs[a.w].probe.fails
      && TransitionOf(e.runs[a.w].stage.status, e.runs[a.w].probe).openIncident
  }

  /** A check that has resolved one does. */
  function ResolvesUnsaved(id: Id): (Engine, Act) -> bool {
    (e: Engine, a: Act) => Saves(e, a, id) && UpsertState in e.runs[a.w].probe.fails
      && TransitionOf(e.runs[a.w].stage.status, e.runs[a.w].probe).resolveIncident
  }

  /** A check that has read Down writes the state row after a request has taken it out of Down. */
  function SavesAfterToggle(id: Id): (Engine, Act) -> bool {
    (e: Engine, a: Act) => Saves(e, a, id) && UpsertState !in e.runs[a.w].probe.fails
      && e.runs[a.w].stage.status.state == Down && IsDown(e.db, id) == 0
  }

  /** A request takes the state row out of Down. */
  function TogglesDown(id: Id): (Engine, Act) -> bool {
    (e: Engine, a: Act) => a.NextStep? && Asking(e, a.k, id) && e.requests[a.k].phase.Writing?
      && Service.WriteState !in FailsOf(e.requests[a.k].op) && IsDown(e.db, id) == 1
  }

  // ---- the balance of one monitor ----

  function OfState(s: MonitorState): int { if s == Down then 1 else 0 }

  /** What a check about to save has done to the incidents and not yet to the state row. */
  function Owed(c: Option<Check>): int {
    if c.Some? && c.value.stage.Saving?
    then OfState(TransitionOf(c.value.stage.status, c.value.probe).to) - OfState(c.value.stage.status.state) else 0
  }

  /** Open incidents over what the state row and the check in progress account for. */
  ghost function Surplus(mine: Tables, c: Option<Check>, id: Id): int { OpenCount(mine, id) - IsDown(mine, id) - Owed(c) }

  /** If the row is down, the check in progress has read it so. */
  ghost predicate ReadDown(mine: Tables, c: Option<Check>, id: Id) {
    c.Some? && HasRead(c.value.stage) && IsDown(mine, id) == 1 ==> StatusOf(c.value.stage).state == Down
  }

  ghost predicate Booked(mine: Tables, c: Option<Check>, id: Id) {
    && DistinctIds(mine.incidents) && (forall i | i in mine.incidents :: i.monitor == id)
    && (c.Some? ==> c.value.monitor == id && Coherent(c.value)) && ReadDown(mine, c, id)
  }

  /** What a save does to the surplus. */
  function Drift(mine: Tables, c: Check, id: Id): int {
    if !c.stage.Saving? then 0
    else if UpsertState in c.probe.fails
    then OfState(TransitionOf(c.stage.status, c.probe).to) - OfState(c.stage.status.state)
    else IsDown(mine, id) - OfState(c.stage.status.state)
  }

  lemma OpeningBalances(mine: Tables, c: Check, id: Id)
    requires Booked(mine, Some(c), id) && c.stage.Opening? && !HasId(mine.incidents, c.probe.incidentId)
    ensures var next := Advance(mine, c);
      Booked(next.0, Going(next.1), id) && Surplus(next.0, Going(next.1), id) == Surplus(mine, Some(c), id)
  {
    if Fails(c) { return; }
    AppendGrows(mine.incidents, NewIncident(id, c.probe));
    CountAppend(mine.incidents, NewIncident(id, c.probe), OpenFor(id));
    assert Advance(mine, c).0.states == mine.states;
  }

  lemma ResolvedMonitors(incidents: seq<Incident>, found: Id, at: Stamp, event: Id, id: Id)
    requires DistinctIds(incidents) && forall i | i in incidents :: i.monitor == id
    ensures var after := ResolveRows(incidents, found, at, event);
      DistinctIds(after) && forall i | i in after :: i.monitor == id
  {
    var after := ResolveRows(incidents, found, at, event);
    ResolveGrows(incidents, found, at, event);
    forall i | i in after ensures i.monitor == id {
      var j :| 0 <= j < |after| && after[j] == i;
      assert incidents[j] in incidents;
    }
  }

  lemma ResolvedCount(mine: Tables, found: Id, at: Stamp, event: Id, id: Id)
    requires DistinctIds(mine.incidents) && (forall i | i in mine.incidents :: i.monitor == id)
    requires Resolvable(mine.incidents, found)
    ensures Count(ResolveRows(mine.incidents, found, at, event), OpenFor(id)) == OpenCount(mine, id) - 1
  {
    var k :| 0 <= k < |mine.incidents| && mine.incidents[k].id == found && mine.incidents[k].resolvedAt == None;
    assert mine.incidents[k] in mine.incidents;
    ResolveRowsCount(mine, k, at, event, id);
  }

  lemma ResolvingBalances(mine: Tables, c: Check, id: Id)
    requires Booked(mine, Some(c), id) && c.stage.Resolving?
    ensures var next := Advance(mine, c);
      Booked(next.0, Going(next.1), id) && Surplus(next.0, Going(next.1), id) == Surplus(mine, Some(c), id)
  {
    var p, found, t := c.probe, c.stage.found, Advance(mine, c).0;
    if Fails(c) || !Resolvable(mine.incidents, found) { return; }
    ResolvedCount(mine, found, p.at, p.incidentEventId, id);
    ResolvedMonitors(mine.incidents, found, p.at, p.incidentEventId, id);
    assert t.states == mine.states && t.incidents == ResolveRows(mine.incidents, found, p.at, p.incidentEventId);
  }

  lemma SavingBalances(mine: Tables, c: Check, id: Id)
    requires Booked(mine, Some(c), id) && c.stage.Saving?
    ensures var next := Advance(mine, c);
      Booked(next.0, Going(next.1), id) && Surplus(next.0, Going(next.1), id) == Surplus(mine, Some(c), id) + Drift(mine, c, id)
  {
    var t := Advance(mine, c).0;
    assert t.incidents == mine.incidents;
  }

  lemma OtherCallBalances(mine: Tables, c: Check, id: Id)
    requires Booked(mine, Some(c), id) && !c.stage.Finished? && !c.stage.Opening? && !c.stage.Resolving? && !c.stage.Saving?
    ensures var next := Advance(mine, c);
      Booked(next.0, Going(next.1), id) && Surplus(next.0, Going(next.1), id) == Surplus(mine, Some(c), id)
  {
    var next := Advance(mine, c);
    StaysCoherent(mine, c);
    assert next.0.incidents == mine.incidents && next.0.states == mine.states;
  }

  lemma CallBalances(mine: Tables, c: Check, id: Id)
    requires Booked(mine, Some(c), id) && !c.stage.Finished?
    requires c.stage.Opening? ==> !HasId(mine.incidents, c.probe.incidentId)
    ensures var next := Advance(mine, c);
      Booked(next.0, Going(next.1), id) && Surplus(next.0, Going(next.1), id) == Surplus(mine, Some(c), id) + Drift(mine, c, id)
  {
    match c.stage
    case Opening(_) => OpeningBalances(mine, c, id);
    case Resolving(_, _) => ResolvingBalances(mine, c, id);
    case Saving(_) => SavingBalances(mine, c, id);
    case _ => OtherCallBalances(mine, c, id);
  }

  /** A request's step takes the row out of Down, if it is down and the step writes it. */
  predicate Undowns(r: Request) { r.phase.Writing? && Service.WriteState !in FailsOf(r.op) }

  lemma StepBalances(mine: Tables, c: Option<Check>, r: Request, id: Id)
    requires Booked(mine, c, id) && Keyed(mine) && Settling(mine, r) && Target(r.op) == id
    requires r.phase.Writing? ==> r.phase.status.state != Down
    ensures var t := Step(mine, r).0;
      && Booked(t, c, id)
      && Surplus(t, c, id) == Surplus(mine, c, id) + (if Undowns(r) then IsDown(mine, id) else 0)
  {
    StepKeepsRows(mine, r);
    var t := Step(mine, r).0;
    assert t.states == if Undowns(r) then mine.states[id := r.phase.status] else mine.states;
  }

  // ---- runs ----

  lemma {:induction false} FilterDistinct(xs: seq<Incident>, p: Incident -> bool)
    requires DistinctIds(xs)
    ensures DistinctIds(Filter(xs, p))
  {
    if xs == [] {
    } else {
      var rest := Filter(xs[1..], p);
      assert forall i | 0 <= i < |xs[1..]| :: xs[1..][i] == xs[i + 1];
      FilterDistinct(xs[1..], p);
      FilterHas(xs[1..], p);
      if p(xs[0]) {
        forall j | 0 <= j < |rest| ensures rest[j].id != xs[0].id {
          assert rest[j] in xs[1..];
          var k :| 0 <= k < |xs[1..]| && xs[1..][k] == rest[j];
        }
        assert forall j | 0 < j < |[xs[0]] + rest| :: ([xs[0]] + rest)[j] == rest[j - 1];
      } else {
        assert Filter(xs, p) == rest;
      }
    }
  }

  ghost predicate Audited(e: Engine, id: Id) {
    Sole(e, id) && Mild(e) && ReadDown(Project(e.db, id), CheckOf(e, id), id)
  }

  lemma IsBooked(e: Engine, id: Id)
    requires Audited(e, id)
    ensures Booked(Project(e.db, id), CheckOf(e, id), id)
  {
    SoleShape(e, id);
    FilterDistinct(e.db.incidents, IncidentsOf(id));
    FilterHas(e.db.incidents, IncidentsOf(id));
  }

  /** The surplus of a monitor in the whole engine. */
  ghost function Over(e: Engine, id: Id): int { OpenCount(e.db, id) - IsDown(e.db, id) - Owed(CheckOf(e, id)) }

  lemma OverProjects(e: Engine, id: Id)
    ensures Over(e, id) == Surplus(Project(e.db, id), CheckOf(e, id), id)
    ensures IsDown(Project(e.db, id), id) == IsDown(e.db, id)
  {
    Notifications.OpenCountProjects(e.db.incidents, id);
  }

  function One(b: bool): int { if b then 1 else 0 }

  ghost function Entries(e: Engine, a: Act, id: Id): int {
    One(OpensUnsaved(id)(e, a)) + One(TogglesDown(id)(e, a)) - One(ResolvesUnsaved(id)(e, a)) - One(SavesAfterToggle(id)(e, a))
  }

  lemma OwnCallAudits(e: Engine, w: nat, id: Id)
    requires Audited(e, id) && Allowed(e, NextCall(w)) && Checking(e, w, id)
    ensures var f := Do(e, NextCall(w));
      ReadDown(Project(f.db, id), CheckOf(f, id), id) && Over(f, id) == Over(e, id) + Entries(e, NextCall(w), id)
  {
    var c, f := e.runs[w], Do(e, NextCall(w));
    OwnCall(e, w, id);
    SoleShape(e, id);
    IsBooked(e, id);
    ProjectHasId(e.db, id, c.probe.incidentId);
    OverProjects(e, id);
    OverProjects(f, id);
    CallBalances(Project(e.db, id), c, id);
    DriftIs(e, w, id);
  }

  lemma DriftIs(e: Engine, w: nat, id: Id)
    requires Audited(e, id) && Checking(e, w, id) && !e.runs[w].stage.Finished?
    ensures Drift(Project(e.db, id), e.runs[w], id) == Entries(e, NextCall(w), id)
  {
    CheckIs(e, w, id);
    OverProjects(e, id);
  }

  lemma StepAudits(e: Engine, k: nat, id: Id)
    requires Audited(e, id) && Allowed(e, NextStep(k))
    ensures var f := Do(e, NextStep(k));
      ReadDown(Project(f.db, id), CheckOf(f, id), id) && Over(f, id) == Over(e, id) + Entries(e, NextStep(k), id)
  {
    var r, f := e.requests[k], Do(e, NextStep(k));
    AnyStep(e, k, id);
    OverProjects(e, id);
    OverProjects(f, id);
    if Asking(e, k, id) {
      IsBooked(e, id);
      ProjectKeyed(e.db, id);
      StepBalances(Project(e.db, id), CheckOf(e, id), r, id);
    }
  }

  lemma OtherAudits(e: Engine, a: Act, id: Id)
    requires Audited(e, id) && Allowed(e, a) && !ChecksTwice(e, a, id)
    requires !a.NextStep? && !(a.NextCall? && Checking(e, a.w, id))
    ensures var f := Do(e, a);
      ReadDown(Project(f.db, id), CheckOf(f, id), id) && Over(f, id) == Over(e, id) + Entries(e, a, id)
  {
    if a.NextCall? { OtherCall(e, a.w, id); } else { AnyStart(e, a, id); }
    OverProjects(e, id);
    OverProjects(Do(e, a), id);
  }

  lemma DoAudits(e: Engine, a: Act, id: Id)
    requires Audited(e, id) && Allowed(e, a) && !ChecksTwice(e, a, id)
    ensures Audited(Do(e, a), id) && Over(Do(e, a), id) == Over(e, id) + Entries(e, a, id)
  {
    DoStaysSole(e, a, id);
    DoStaysMild(e, a);
    if a.NextStep? {
      StepAudits(e, a.k, id);
    } else if a.NextCall? && Checking(e, a.w, id) {
      OwnCallAudits(e, a.w, id);
    } else {
      OtherAudits(e, a, id);
    }
  }

  lemma {:induction false} RunAudits(e: Engine, acts: seq<Act>, id: Id)
    requires Audited(e, id) && Schedule(e, acts) && OneAtATime(e, acts, id)
    ensures Audited(After(e, acts), id)
    ensures Over(After(e, acts), id) - Over(e, id)
         == Steps(e, acts, OpensUnsaved(id)) + Steps(e, acts, TogglesDown(id))
            - Steps(e, acts, ResolvesUnsaved(id)) - Steps(e, acts, SavesAfterToggle(id))
    decreases |acts|
  {
    if acts == [] {
    } else {
      DoAudits(e, acts[0], id);
      RunAudits(Do(e, acts[0]), acts[1..], id);
    }
  }

  /** The incident ledger call by call, in every interleaving in which no second check of the monitor starts, with
      requests that overlap, fail, and write inside checks as they like: when no check is in progress, open
      incidents + resolved without saving + saved after a toggle of what was down
      = (1 if down) + opened without saving + taken out of down by a request. */
  lemma LedgerOfCalls(acts: seq<Act>, id: Id)
    requires Schedule(START, acts) && OneAtATime(START, acts, id) && CheckOf(After(START, acts), id) == None
    ensures var db := After(START, acts).db;
      OpenCount(db, id) + Steps(START, acts, ResolvesUnsaved(id)) + Steps(START, acts, SavesAfterToggle(id))
      == IsDown(db, id) + Steps(START, acts, OpensUnsaved(id)) + Steps(START, acts, TogglesDown(id))
  {
    RunAudits(START, acts, id);
  }
}
