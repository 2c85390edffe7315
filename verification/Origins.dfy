/** Where incidents come from: in every interleaving each of them carries what the failing check that opened it
    said, and nothing changes that afterwards. */
module Origins {
  import opened Common
  import opened Store
  import opened CheckRun
  import opened Projection
  import opened Interleaving
  import opened SoleCheck

  /** Among the acts a failing check of the incident's monitor starts, with the incident's id, start, start event and
      reason. */
  ghost predicate OpenedBy(acts: seq<Act>, i: Incident) {
    exists a | a in acts && a.StartCheck? ::
      && a.id == i.monitor && !a.probe.success
      && i.id == a.probe.incidentId && i.startedAt == a.probe.at && i.startEvent == a.probe.incidentEventId
      && i.reason == a.probe.reason
  }

  /** The run was started by one of the acts. */
  ghost predicate StartedBy(acts: seq<Act>, c: Check) {
    exists a | a in acts && a.StartCheck? :: a.id == c.monitor && a.probe == c.probe
  }

  ghost predicate Known(n: nat, past: seq<Act>, e: Engine) {
    && Tracked(e) && n <= |e.db.incidents|
    && (forall w | w in e.runs :: StartedBy(past, e.runs[w]) && Coherent(e.runs[w]))
    && (forall k | n <= k < |e.db.incidents| :: OpenedBy(past, e.db.incidents[k]))
  }

  lemma OpenedLater(past: seq<Act>, a: Act, i: Incident, j: Incident)
    requires OpenedBy(past, i) && j.id == i.id && j.monitor == i.monitor && j.startedAt == i.startedAt
    requires j.startEvent == i.startEvent && j.reason == i.reason
    ensures OpenedBy(past + [a], j)
  {
    var b :| b in past && b.StartCheck? && b.id == i.monitor && !b.probe.success
      && i.id == b.probe.incidentId && i.startedAt == b.probe.at && i.startEvent == b.probe.incidentEventId
      && i.reason == b.probe.reason;
    assert b in past + [a];
  }

  lemma StartedLater(past: seq<Act>, a: Act, c: Check, d: Check)
    requires StartedBy(past, c) && d.monitor == c.monitor && d.probe == c.probe
    ensures StartedBy(past + [a], d)
  {
    var b :| b in past && b.StartCheck? && b.id == c.monitor && b.probe == c.probe;
    assert b in past + [a];
  }

  /** Only an opening appends an incident, that of its failing check. */
  lemma CallOpens(db: Tables, c: Check)
    requires !c.stage.Finished? && Coherent(c)
    ensures var t := Advance(db, c).0;
      |t.incidents| <= |db.incidents| + 1
      && (|t.incidents| > |db.incidents| ==>
            && !c.probe.success
            && t.incidents[|db.incidents|]
               == Incident(c.probe.incidentId, c.monitor, c.probe.at, None, c.probe.incidentEventId, None, c.probe.reason))
  {}

  lemma CallKnown(n: nat, past: seq<Act>, e: Engine, w: nat)
    requires Known(n, past, e) && Allowed(e, NextCall(w))
    ensures Known(n, past + [NextCall(w)], Do(e, NextCall(w)))
  {
    var c, f, a := e.runs[w], Do(e, NextCall(w)), NextCall(w);
    DoTracked(e, a);
    CallGrows(e.db, c);
    CallOpens(e.db, c);
    StaysCoherent(e.db, c);
    forall v | v in f.runs ensures StartedBy(past + [a], f.runs[v]) && Coherent(f.runs[v]) {
      StartedLater(past, a, e.runs[v], f.runs[v]);
    }
    forall k | n <= k < |f.db.incidents| ensures OpenedBy(past + [a], f.db.incidents[k]) {
      if k < |e.db.incidents| {
        OpenedLater(past, a, e.db.incidents[k], f.db.incidents[k]);
      } else {
        StartedLater(past, a, c, c);
      }
    }
  }

  lemma QuietKnown(n: nat, past: seq<Act>, e: Engine, a: Act)
    requires Known(n, past, e) && Allowed(e, a) && !a.NextCall?
    ensures Known(n, past + [a], Do(e, a))
  {
    var f := Do(e, a);
    DoTracked(e, a);
    if a.NextStep? { StepKeepsRows(e.db, e.requests[a.k]); }
    assert f.db.incidents == e.db.incidents;
    forall w | w in f.runs ensures StartedBy(past + [a], f.runs[w]) && Coherent(f.runs[w]) {
      if a.StartCheck? && a.w == w {
        assert a in past + [a];
      } else {
        StartedLater(past, a, e.runs[w], f.runs[w]);
      }
    }
    forall k | n <= k < |f.db.incidents| ensures OpenedBy(past + [a], f.db.incidents[k]) {
      OpenedLater(past, a, e.db.incidents[k], f.db.incidents[k]);
    }
  }

  lemma {:induction false} RunKnown(n: nat, past: seq<Act>, e: Engine, acts: seq<Act>)
    requires Known(n, past, e) && Schedule(e, acts)
    ensures Known(n, past + acts, After(e, acts))
    decreases |acts|
  {
    if acts == [] {
      assert past + acts == past;
    } else {
      var a := acts[0];
      if a.NextCall? { CallKnown(n, past, e, a.w); } else { QuietKnown(n, past, e, a); }
      RunKnown(n, past + [a], Do(e, a), acts[1..]);
      assert (past + [a]) + acts[1..] == past + acts;
    }
  }

  lemma {:induction false} RunGrows(e: Engine, acts: seq<Act>)
    requires Tracked(e) && Schedule(e, acts)
    ensures Grows(e.db.incidents, After(e, acts).db.incidents)
    decreases |acts|
  {
    if acts == [] {
    } else {
      var a, f := acts[0], Do(e, acts[0]);
      DoTracked(e, a);
      match a {
        case NextCall(w) => CallGrows(e.db, e.runs[w]);
        case NextStep(k) => StepKeepsRows(e.db, e.requests[k]);
        case _ =>
      }
      RunGrows(f, acts[1..]);
    }
  }

  /** In every interleaving, from any stored tables and with any faults: each new incident carries the id, start,
      start event and reason of a failing check of its monitor; and an incident once there keeps its id, its monitor
      and all that it says of its start. */
  lemma IncidentsSayWhy(db: Tables, acts: seq<Act>)
    requires DistinctIncidents(db) && Keyed(db) && Schedule(Engine(db, map[], map[]), acts)
    ensures var t := After(Engine(db, map[], map[]), acts).db;
      && |db.incidents| <= |t.incidents|
      && (forall k | 0 <= k < |db.incidents| ::
            var i, j := db.incidents[k], t.incidents[k];
            j.id == i.id && j.monitor == i.monitor && j.startedAt == i.startedAt && j.startEvent == i.startEvent
            && j.reason == i.reason)
      && (forall k | |db.incidents| <= k < |t.incidents| :: OpenedBy(acts, t.incidents[k]))
  {
    RunKnown(|db.incidents|, [], Engine(db, map[], map[]), acts);
    RunGrows(Engine(db, map[], map[]), acts);
    assert [] + acts == acts;
  }
}
