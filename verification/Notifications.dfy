/** The notification jobs that checks enqueue: no key twice in any interleaving with any faults; and the incident
    ledger of interleaved runs, told by each monitor's own operations. */
module Notifications {
  import opened Common
  import opened Store
  import opened CheckRun
  import opened World
  import opened Projection
  import opened Commute
  import opened Interleaving
  import opened Placement
  import opened Serial
  import opened Ledger

  // ---- distinct keys ----

  /** What the delivery pipeline suppresses duplicates by. */
  function KeyOf(j: NotifyJob): (Id, JobKind) { (j.incident, j.kind) }

  ghost predicate DistinctKeys(jobs: seq<NotifyJob>) {
    forall i, j | 0 <= i < j < |jobs| :: KeyOf(jobs[i]) != KeyOf(jobs[j])
  }

  /** The job's incident exists, and is resolved if the job announces its end. */
  ghost predicate Backed(incidents: seq<Incident>, j: NotifyJob) {
    exists k | 0 <= k < |incidents| ::
      incidents[k].id == j.incident && (j.kind == MonitorRecovered ==> incidents[k].resolvedAt.Some?)
  }

  ghost predicate Announces(db: Tables) {
    DistinctKeys(db.outbox) && forall j | j in db.outbox :: Backed(db.incidents, j)
  }

  lemma BackedGrows(a: seq<Incident>, b: seq<Incident>, jobs: seq<NotifyJob>)
    requires Grows(a, b) && forall j | j in jobs :: Backed(a, j)
    ensures forall j | j in jobs :: Backed(b, j)
  {
    forall j | j in jobs ensures Backed(b, j) {
      var k :| 0 <= k < |a| && a[k].id == j.incident && (j.kind == MonitorRecovered ==> a[k].resolvedAt.Some?);
      assert b[k].id == j.incident;
    }
  }

  lemma NewKey(jobs: seq<NotifyJob>, j: NotifyJob)
    requires DistinctKeys(jobs) && forall i | i in jobs :: KeyOf(i) != KeyOf(j)
    ensures DistinctKeys(jobs + [j])
  {
    assert forall k | 0 <= k < |jobs| :: jobs[k] in jobs;
  }

  lemma OpeningAnnounces(db: Tables, c: Check)
    requires c.stage.Opening? && Announces(db) && !HasId(db.incidents, c.probe.incidentId) && DistinctIncidents(db)
    ensures Announces(Effect(db, c))
  {
    var i, p := NewIncident(c.monitor, c.probe), c.probe;
    var j := NotifyJob(MonitorDown, c.monitor, p.incidentId, p.incidentEventId);
    var after := db.incidents + [i];
    AppendGrows(db.incidents, i);
    BackedGrows(db.incidents, after, db.outbox);
    assert after[|db.incidents|].id == j.incident && Backed(after, j);
    forall o | o in db.outbox ensures KeyOf(o) != KeyOf(j) {
      var k :| 0 <= k < |db.incidents| && db.incidents[k].id == o.incident;
    }
    NewKey(db.outbox, j);
  }

  lemma NotYetRecovered(db: Tables, j: NotifyJob, k: nat)
    requires DistinctIncidents(db) && Backed(db.incidents, j)
    requires k < |db.incidents| && db.incidents[k].resolvedAt == None
    ensures KeyOf(j) != (db.incidents[k].id, MonitorRecovered)
  {
    var m :| 0 <= m < |db.incidents| && db.incidents[m].id == j.incident
             && (j.kind == MonitorRecovered ==> db.incidents[m].resolvedAt.Some?);
  }

  lemma ResolvingAnnounces(db: Tables, c: Check)
    requires c.stage.Resolving? && Announces(db) && DistinctIncidents(db)
    ensures Announces(Effect(db, c))
  {
    var found, p := c.stage.found, c.probe;
    if !Resolvable(db.incidents, found) { return; }
    var j := NotifyJob(MonitorRecovered, c.monitor, found, p.incidentEventId);
    var after := ResolveRows(db.incidents, found, p.at, p.incidentEventId);
    ResolveGrows(db.incidents, found, p.at, p.incidentEventId);
    BackedGrows(db.incidents, after, db.outbox);
    var k :| 0 <= k < |db.incidents| && db.incidents[k].id == found && db.incidents[k].resolvedAt == None;
    assert after[k].id == found && Backed(after, j);
    forall o | o in db.outbox ensures KeyOf(o) != KeyOf(j) { NotYetRecovered(db, o, k); }
    NewKey(db.outbox, j);
  }

  lemma CallAnnounces(db: Tables, c: Check)
    requires !c.stage.Finished? && DistinctIncidents(db) && Announces(db)
    requires MayOpen(c) ==> !HasId(db.incidents, c.probe.incidentId)
    ensures Announces(Advance(db, c).0)
  {
    if Fails(c) { return; }
    if c.stage.Opening? { OpeningAnnounces(db, c); }
    if c.stage.Resolving? { ResolvingAnnounces(db, c); }
  }

  lemma DoAnnounces(e: Engine, a: Act)
    requires Tracked(e) && Announces(e.db) && Allowed(e, a)
    ensures Announces(Do(e, a).db)
  {
    match a
    case StartCheck(_, _, _) =>
    case NextCall(w) => CallAnnounces(e.db, e.runs[w]);
    case StartRequest(_, _) =>
    case NextStep(k) => StepKeepsRows(e.db, e.requests[k]);
  }

  lemma {:induction false} ScheduleAnnounces(e: Engine, acts: seq<Act>)
    requires Tracked(e) && Announces(e.db) && Schedule(e, acts)
    ensures Announces(After(e, acts).db)
    decreases |acts|
  {
    if acts == [] {
    } else {
      DoTracked(e, acts[0]);
      DoAnnounces(e, acts[0]);
      ScheduleAnnounces(Do(e, acts[0]), acts[1..]);
    }
  }

  /** From any stored tables, in every interleaving, with checks of one monitor side by side if need be, and
      whichever calls fail, no two enqueued jobs share incident and event type. */
  lemma EnqueuedKeysDistinct(db: Tables, acts: seq<Act>)
    requires Calm(db) && db.outbox == [] && Schedule(Engine(db, map[], map[]), acts)
    ensures DistinctKeys(After(Engine(db, map[], map[]), acts).db.outbox)
  {
    ScheduleAnnounces(Engine(db, map[], map[]), acts);
  }

  // ---- a monitor's own operations ----

  ghost predicate AllOn(ops: seq<Op>, id: Id) { forall op | op in ops :: Target(op) == id }

  lemma {:induction false} OpsOfTarget(e: Engine, acts: seq<Act>, id: Id)
    requires Schedule(e, acts)
    ensures AllOn(OpsOf(e, acts, id), id)
    decreases |acts|
  {
    if acts == [] {
    } else {
      OpsOfTarget(Do(e, acts[0]), acts[1..], id);
    }
  }

  /** Ids drawn fresh in the interleaved run are fresh in the monitor's replay. */
  lemma {:induction false} ReplayIsFresh(e: Engine, acts: seq<Act>, id: Id, l: Level)
    requires Tracked(e) && Steady(e, id, l) && Schedule(e, acts) && Undisturbed(e, acts, id, l)
    ensures FreshRun(Settled(e, id), OpsOf(e, acts, id))
    decreases |acts|
  {
    if acts == [] {
    } else {
      var f, db := Do(e, acts[0]), Settled(e, id);
      var first, rest := OpOf(e, acts[0], id), OpsOf(f, acts[1..], id);
      DoTracked(e, acts[0]);
      DoStaysSteady(e, acts[0], id, l);
      DoSettles(e, acts[0], id, l);
      ReplayIsFresh(f, acts[1..], id, l);
      FreshAlike(Settled(f, id), Run(db, first), rest, l);
      if first == [] {
        assert first + rest == rest;
      } else {
        assert first == [first[0]];
        OneOp(db, first[0]);
        assert (first + rest)[1..] == rest;
        ReadIsFresh(e, acts[0], id, l);
      }
    }
  }

  /** The incident id of a check that reads its state is new to the monitor's rows. */
  lemma ReadIsFresh(e: Engine, a: Act, id: Id, l: Level)
    requires Tracked(e) && Steady(e, id, l) && Allowed(e, a) && OpOf(e, a, id) != []
    ensures Fresh(Settled(e, id), OpOf(e, a, id)[0])
  {
    if a.NextCall? {
      CheckIs(e, a.w, id);
      SettledIncidents(e, id, l);
      FilterHas(e.db.incidents, IncidentsOf(id));
      forall i | i in Settled(e, id).incidents ensures i.id != e.runs[a.w].probe.incidentId {
        var k :| 0 <= k < |e.db.incidents| && e.db.incidents[k] == i;
      }
    }
  }

  /** A request in progress has no say in the incidents. */
  lemma SettledIncidents(e: Engine, id: Id, l: Level)
    requires Tracked(e) && Steady(e, id, l)
    requires CheckOf(e, id).Some? ==> !HasRead(CheckOf(e, id).value.stage)
    ensures Settled(e, id).incidents == Filter(e.db.incidents, IncidentsOf(id))
  {
    RequestShape(e, id, l);
    var r := RequestOf(e, id);
    if r.Some? { TidyForm(Project(e.db, id), r.value); }
  }

  lemma {:induction false} OpenCountProjects(incidents: seq<Incident>, id: Id)
    ensures Count(Filter(incidents, IncidentsOf(id)), OpenFor(id)) == Count(incidents, OpenFor(id))
  {
    if incidents == [] { return; }
    OpenCountProjects(incidents[1..], id);
    var mine := Filter(incidents[1..], IncidentsOf(id));
    if incidents[0].monitor == id {
      assert ([incidents[0]] + mine)[1..] == mine;
    } else {
      assert Filter(incidents, IncidentsOf(id)) == mine;
    }
  }

  /** The incident ledger of an interleaved run, told by the monitor's own operations. */
  lemma LedgerUnderInterleaving(acts: seq<Act>, id: Id)
    requires Schedule(START, acts) && Undisturbed(START, acts, id, Health) && Quiescent(After(START, acts), id)
    ensures var end, ops := After(START, acts).db, OpsOf(START, acts, id);
      OpenCount(end, id) + Tally(EMPTY, ops, LostResolve(id))
      == IsDown(end, id) + Tally(EMPTY, ops, LostOpen(id)) + Tally(EMPTY, ops, ToggledDown(id))
  {
    assert Project(EMPTY, id) == EMPTY;
    ChecksSerialise(EMPTY, acts, id, Health);
    ReplayIsFresh(START, acts, id, Health);
    IncidentLedger(OpsOf(START, acts, id), id);
    OpenCountProjects(After(START, acts).db.incidents, id);
  }
}
