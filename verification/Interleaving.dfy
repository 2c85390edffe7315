/** Checks on several workers and requests to the service interleave store call by store call, on shared tables.
    Nothing keeps two requests, or a request and a check, of one monitor apart. */
module Interleaving {
  import opened Common
  import opened Monitors
  import opened Store
  import opened CheckRun
  import opened World
  import opened Projection
  import opened Requests

  /** `runs` holds the checks in progress by worker, `requests` the lifecycle operations in progress. */
  datatype Engine = Engine(db: Tables, runs: map<nat, Check>, requests: map<nat, Request>)

  /** Empty tables and nothing in progress. */
  const START := Engine(EMPTY, map[], map[])

  datatype Act = StartCheck(w: nat, id: Id, probe: Probe) | NextCall(w: nat) | StartRequest(k: nat, op: Op) | NextStep(k: nat)

  predicate HasId(incidents: seq<Incident>, id: Id) { exists k | 0 <= k < |incidents| :: incidents[k].id == id }

  /** The stages from which a run may still insert its incident. */
  predicate MayOpen(c: Check) {
    c.stage.Getting? || c.stage.Recording? || c.stage.Changing? || c.stage.Announcing? || c.stage.Opening?
  }

  /** The incident id is new, also among the runs in progress. */
  ghost predicate FreshId(e: Engine, id: Id) {
    !HasId(e.db.incidents, id) && forall r | r in e.runs :: MayOpen(e.runs[r]) ==> e.runs[r].probe.incidentId != id
  }

  ghost predicate Allowed(e: Engine, a: Act) {
    match a
    case StartCheck(w, _, p) => w !in e.runs && FreshId(e, p.incidentId)
    case NextCall(w) => w in e.runs && !e.runs[w].stage.Finished?
    case StartRequest(k, op) => k !in e.requests && !op.CheckOp?
    case NextStep(k) => k in e.requests && !e.requests[k].phase.Returned? && !e.requests[k].op.CheckOp?
  }

  ghost function Do(e: Engine, a: Act): Engine
    requires Allowed(e, a)
  {
    match a
    case StartCheck(w, id, p) => e.(runs := e.runs[w := Begin(id, p)])
    case NextCall(w) =>
      var next := Advance(e.db, e.runs[w]);
      e.(db := next.0, runs := if next.1.stage.Finished? then e.runs - {w} else e.runs[w := next.1])
    case StartRequest(k, op) => e.(requests := e.requests[k := Enter(op)])
    case NextStep(k) =>
      var next := Step(e.db, e.requests[k]);
      e.(db := next.0, requests := if next.1.phase.Returned? then e.requests - {k} else e.requests[k := next.1])
  }

  ghost predicate Schedule(e: Engine, acts: seq<Act>)
    decreases |acts|
  {
    acts == [] || (Allowed(e, acts[0]) && Schedule(Do(e, acts[0]), acts[1..]))
  }

  ghost function After(e: Engine, acts: seq<Act>): Engine
    requires Schedule(e, acts)
    decreases |acts|
  {
    if acts == [] then e else After(Do(e, acts[0]), acts[1..])
  }

  // ---- the incident table ----

  /** Rows are only appended or resolved; what it says of its start stays. */
  ghost predicate Grows(a: seq<Incident>, b: seq<Incident>) {
    && |a| <= |b|
    && forall k | 0 <= k < |a| ::
         && b[k].id == a[k].id && b[k].monitor == a[k].monitor && b[k].startedAt == a[k].startedAt
         && b[k].startEvent == a[k].startEvent && b[k].reason == a[k].reason
         && (a[k].resolvedAt.Some? ==> b[k].resolvedAt.Some?)
  }

  ghost predicate FoundRow(db: Tables, c: Check) {
    c.stage.Concluding? || c.stage.Resolving? ==>
      exists k | 0 <= k < |db.incidents| ::
        db.incidents[k].id == c.stage.found && db.incidents[k].monitor == c.monitor
  }

  lemma FoundRowOwned(db: Tables, c: Check)
    requires DistinctIncidents(db) && FoundRow(db, c)
    ensures OwnsFound(db, c)
  {}

  lemma GrowsKeepsFound(a: Tables, b: Tables, c: Check)
    requires FoundRow(a, c) && Grows(a.incidents, b.incidents)
    ensures FoundRow(b, c)
  {
    if c.stage.Concluding? || c.stage.Resolving? {
      var k :| 0 <= k < |a.incidents| && a.incidents[k].id == c.stage.found && a.incidents[k].monitor == c.monitor;
      assert b.incidents[k].id == c.stage.found;
    }
  }

  lemma AppendGrows(xs: seq<Incident>, i: Incident)
    requires DistinctIds(xs) && !HasId(xs, i.id)
    ensures var ys := xs + [i];
      DistinctIds(ys) && Grows(xs, ys) && forall id | HasId(ys, id) :: HasId(xs, id) || id == i.id
  {
    var ys := xs + [i];
    forall id | HasId(ys, id) ensures HasId(xs, id) || id == i.id {
      var k :| 0 <= k < |ys| && ys[k].id == id;
      if k < |xs| { assert xs[k].id == id; }
    }
  }

  lemma ResolveGrows(xs: seq<Incident>, found: Id, at: Stamp, event: Id)
    requires DistinctIds(xs)
    ensures var ys := ResolveRows(xs, found, at, event);
      DistinctIds(ys) && Grows(xs, ys) && forall id | HasId(ys, id) :: HasId(xs, id)
  {
    var ys := ResolveRows(xs, found, at, event);
    assert forall k | 0 <= k < |xs| :: ys[k].id == xs[k].id;
    forall id | HasId(ys, id) ensures HasId(xs, id) {
      var k :| 0 <= k < |ys| && ys[k].id == id;
      assert xs[k].id == id;
    }
  }

  lemma CallGrows(db: Tables, c: Check)
    requires !c.stage.Finished? && DistinctIncidents(db)
    requires MayOpen(c) ==> !HasId(db.incidents, c.probe.incidentId)
    ensures var next := Advance(db, c).0.incidents;
      && DistinctIds(next) && Grows(db.incidents, next)
      && forall id | HasId(next, id) :: HasId(db.incidents, id) || (c.stage.Opening? && id == c.probe.incidentId)
  {
    if Fails(c) { return; }
    if c.stage.Opening? {
      AppendGrows(db.incidents, NewIncident(c.monitor, c.probe));
    } else if c.stage.Resolving? {
      ResolveGrows(db.incidents, c.stage.found, c.probe.at, c.probe.incidentEventId);
    }
  }

  lemma CallKeepsFound(db: Tables, c: Check)
    requires !c.stage.Finished? && FoundRow(db, c)
    ensures var next := Advance(db, c);
      && FoundRow(next.0, next.1) && next.1.monitor == c.monitor && next.1.probe == c.probe
      && (MayOpen(next.1) ==> MayOpen(c) && next.0.incidents == db.incidents)
  {
    if c.stage.Finding? && FindOpen(db.incidents, c.monitor).Some? {
      var k := FindOpen(db.incidents, c.monitor).value;
      assert db.incidents[k].monitor == c.monitor;
    }
  }

  // ---- the invariant of the interleaved engine ----

  /** Checks and requests in progress are well formed, and a check that has read a state row has one. */
  ghost predicate Filed(e: Engine) {
    && Keyed(e.db)
    && (forall w | w in e.runs ::
          var c := e.runs[w];
          && !c.stage.Finished? && (HasRead(c.stage) ==> c.monitor in e.db.states)
          && (c.stage.Getting? ==> c == Begin(c.monitor, c.probe)))
    && (forall k | k in e.requests :: Settling(e.db, e.requests[k]))
  }

  /** The request is under way, and a state row that it is about to write belongs to a monitor row. */
  ghost predicate Settling(db: Tables, r: Request) {
    Formed(r) && !r.phase.Returned? && (r.phase.Writing? ==> Target(r.op) in db.monitors)
  }

  /** Incident ids are unique, those still to be used are new, and what a run has found exists. */
  ghost predicate FreshIds(e: Engine) {
    && DistinctIncidents(e.db)
    && (forall w | w in e.runs :: FoundRow(e.db, e.runs[w]))
    && (forall w | w in e.runs :: MayOpen(e.runs[w]) ==> !HasId(e.db.incidents, e.runs[w].probe.incidentId))
    && (forall v, w | v in e.runs && w in e.runs && v != w ::
          MayOpen(e.runs[v]) && MayOpen(e.runs[w]) ==> e.runs[v].probe.incidentId != e.runs[w].probe.incidentId)
  }

  ghost predicate Tracked(e: Engine) { Filed(e) && FreshIds(e) }

  /** A request's call appends nothing but events, and removes no row. */
  lemma StepKeepsRows(db: Tables, r: Request)
    requires Keyed(db) && Settling(db, r)
    ensures var t := Step(db, r).0;
      && Keyed(t) && t.incidents == db.incidents && t.outbox == db.outbox && t.checks == db.checks
      && db.monitors.Keys <= t.monitors.Keys && db.states.Keys <= t.states.Keys
      && (forall e | e in db.events :: e in t.events)
  {
    match r.phase
    case Storing(m) => StoresKeepRows(db, r.op, m);
    case _ =>
  }

  lemma StoresKeepRows(db: Tables, op: Op, m: Monitor)
    requires Keyed(db) && !op.CheckOp? && m.id == Target(op)
    ensures var t := Stores(db, op, m).0;
      && Keyed(t) && t == db.(monitors := t.monitors) && db.monitors.Keys <= t.monitors.Keys
  {}

  lemma StepStaysSettling(db: Tables, r: Request)
    requires Keyed(db) && Settling(db, r)
    ensures var next := Step(db, r); next.1.phase.Returned? || Settling(next.0, next.1)
  {
    StaysFormed(db, r);
  }

  lemma StepTracked(e: Engine, k: nat)
    requires Tracked(e) && k in e.requests
    ensures Tracked(Do(e, NextStep(k)))
  {
    StepKeepsRows(e.db, e.requests[k]);
    StepStaysSettling(e.db, e.requests[k]);
    var f := Do(e, NextStep(k));
    assert forall w | w in f.runs :: FoundRow(e.db, f.runs[w]);
  }

  lemma CallKeepsRows(db: Tables, c: Check)
    requires Keyed(db) && !c.stage.Finished? && (HasRead(c.stage) ==> c.monitor in db.states)
    ensures var next := Advance(db, c);
      && Keyed(next.0) && next.0.monitors == db.monitors && next.0.states.Keys == db.states.Keys
      && next.1.monitor == c.monitor && next.1.probe == c.probe && !next.1.stage.Getting?
      && (HasRead(next.1.stage) ==> c.monitor in db.states)
  {
    var next := Advance(db, c);
    assert next.0.monitors == db.monitors;
    assert next.0.states.Keys == db.states.Keys;
  }

  lemma CallStaysFiled(e: Engine, w: nat)
    requires Filed(e) && w in e.runs
    ensures Filed(Do(e, NextCall(w)))
  {
    CallKeepsRows(e.db, e.runs[w]);
  }

  lemma CallKeepsFresh(e: Engine, w: nat)
    requires Filed(e) && FreshIds(e) && w in e.runs
    ensures FreshIds(Do(e, NextCall(w)))
  {
    var c := e.runs[w];
    CallGrows(e.db, c);
    CallKeepsFound(e.db, c);
    var f := Do(e, NextCall(w));
    forall v | v in f.runs ensures FoundRow(f.db, f.runs[v]) {
      if v != w { GrowsKeepsFound(e.db, f.db, e.runs[v]); }
    }
    forall v | v in f.runs && MayOpen(f.runs[v]) ensures !HasId(f.db.incidents, f.runs[v].probe.incidentId) {
      if v != w { assert !HasId(e.db.incidents, e.runs[v].probe.incidentId); }
    }
  }

  lemma DoTracked(e: Engine, a: Act)
    requires Tracked(e) && Allowed(e, a)
    ensures Tracked(Do(e, a))
  {
    match a
    case StartCheck(_, _, _) =>
    case NextCall(w) => CallStaysFiled(e, w); CallKeepsFresh(e, w);
    case StartRequest(_, _) =>
    case NextStep(k) => StepTracked(e, k);
  }
}
