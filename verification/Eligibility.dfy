/** Which monitors are checked, told in the fields of their rows: automatic checks go to enabled, live monitors
    with a positive interval and to no others. */
module Eligibility {
  import opened Common
  import opened Monitors
  import opened Store
  import opened World
  import opened SchedulerSpec
  import Spec = SchedulerSpec
  import Mirror
  import Reports
  import ReportMirror
  import Service = ServiceSpec

  // ---- the steps of the scheduler, field by field ----

  /** An automatic fire is accepted exactly for a registered monitor that is enabled, not deleted, has a positive
      interval and no check under way; a manual one for any registered monitor without a check under way. */
  lemma FireExactly(s: State, id: Id, manual: bool)
    ensures FireAccepts(s, id, manual) <==>
      && id in s.entries && !s.entries[id].running
      && (manual || (s.entries[id].monitor.enabled && !s.entries[id].monitor.deleted && s.entries[id].monitor.interval > 0))
  {}

  /** An accepted fire sets the flag of its entry and holds a job with the monitor as registered; a refused one
      changes nothing. */
  lemma FireInFull(s: State, id: Id, manual: bool)
    ensures var t := FireLock(s, id, manual);
      if FireAccepts(s, id, manual) then
        && t.entries.Keys == s.entries.Keys && t.entries[id].running
        && t.entries[id].monitor == s.entries[id].monitor && t.entries[id].ticker == s.entries[id].ticker
        && (forall jd | jd in s.entries && jd != id :: t.entries[jd] == s.entries[jd])
        && |t.fires| == |s.fires| + 1 && t.fires[..|s.fires|] == s.fires && !t.fires[|s.fires|].polled
        && t.fires[|s.fires|].job.monitor == s.entries[id].monitor && t.fires[|s.fires|].job.manual == manual
        && t.jobs == s.jobs && t.workers == s.workers && t.tickers == s.tickers
      else t == s
  {}

  /** A registration keeps the flag, cancels the old ticker, and starts one exactly for an enabled, live monitor
      with a positive interval on a running scheduler. */
  lemma UpsertInFull(s: State, m: Monitor)
    ensures var t := Upsert(s, m);
      && t.entries.Keys == s.entries.Keys + {m.id} && t.entries[m.id].monitor == m
      && (t.entries[m.id].running <==> m.id in s.entries && s.entries[m.id].running)
      && (forall id | id in s.entries && id != m.id :: t.entries[id] == s.entries[id])
      && (t.entries[m.id].ticker.Some? <==> s.started && !s.stopped && m.enabled && !m.deleted && m.interval > 0)
      && |t.tickers| == |s.tickers| + (if t.entries[m.id].ticker.Some? then 1 else 0)
      && (t.entries[m.id].ticker.Some? ==>
            t.entries[m.id].ticker.value == |s.tickers|
            && t.tickers[|s.tickers|].id == m.id && t.tickers[|s.tickers|].interval == m.interval
            && !t.tickers[|s.tickers|].cancelled)
      && (m.id in s.entries && s.entries[m.id].ticker.Some? && s.entries[m.id].ticker.value < |s.tickers| ==>
            t.tickers[s.entries[m.id].ticker.value].cancelled)
      && t.fires == s.fires && t.jobs == s.jobs && t.workers == s.workers
  {}

  /** An aborted fire clears the flag of the entry object it locked and of no other, be it registered under the
      same id. */
  lemma AbortInFull(s: State, i: nat)
    requires i < |s.fires|
    ensures var t := Abort(s, i);
      && t.entries.Keys == s.entries.Keys && t.fires == s.fires[..i] + s.fires[i + 1..] && t.jobs == s.jobs
      && forall id | id in s.entries ::
           && t.entries[id].monitor == s.entries[id].monitor
           && (t.entries[id].running <==>
                 s.entries[id].running && !(id == s.fires[i].job.monitor.id && s.entries[id].gen == s.fires[i].gen))
  {}

  /** A blocked send is ready exactly while fewer than two jobs per worker are queued. */
  lemma SendExactly(s: State, i: nat)
    requires i < |s.fires| && s.fires[i].polled
    ensures Spec.Enabled(s, DoSend(i)) <==> |s.jobs| < s.size + s.size
  {}

  // ---- live tickers ----

  /** An uncancelled ticker of the monitor. */
  ghost predicate Ticking(s: State, id: Id, t: nat) { t < |s.tickers| && s.tickers[t].id == id && !s.tickers[t].cancelled }

  /** The monitor is registered exactly if its row is live, and then as the row says. */
  ghost predicate AsItsRow(monitors: map<Id, Monitor>, s: State, id: Id) {
    && (id in s.entries <==> id in monitors && !monitors[id].deleted)
    && (id in s.entries ==> Stored(s.entries[id].monitor) == monitors[id])
  }

  /** The monitor has an uncancelled ticker exactly if its row is live and enabled and the reported interval is
      positive; there is only one, and it has that interval. */
  ghost predicate TicksAsItsRow(monitors: map<Id, Monitor>, s: State, id: Id) {
    && ((exists t: nat :: Ticking(s, id, t)) <==>
          id in s.entries && id in monitors && !monitors[id].deleted && monitors[id].enabled
          && s.entries[id].monitor.interval > 0)
    && (forall t: nat, u: nat :: Ticking(s, id, t) && Ticking(s, id, u) ==> t == u)
    && (forall t: nat :: Ticking(s, id, t) ==> s.tickers[t].interval == s.entries[id].monitor.interval)
    && (FireAccepts(s, id, false) ==> id in monitors && monitors[id].enabled && !monitors[id].deleted)
  }

  lemma TickersFollowRows(monitors: map<Id, Monitor>, s: State, id: Id)
    requires Mirror.TickersMatch(s) && AsItsRow(monitors, s, id)
    ensures TicksAsItsRow(monitors, s, id)
  {
    forall t: nat | Ticking(s, id, t) ensures Mirror.Owns(s, id, t) { assert Mirror.Owns(s, s.tickers[t].id, t); }
    if id in s.entries && s.entries[id].ticker.Some? {
      assert Mirror.Owns(s, id, s.entries[id].ticker.value);
      assert Ticking(s, id, s.entries[id].ticker.value);
    }
  }

  /** While scheduler and table mirror each other. */
  lemma MirrorTicks(db: Tables, s: State, id: Id)
    requires Mirror.Mirrors(db, s)
    ensures TicksAsItsRow(db.monitors, s, id)
  {
    TickersFollowRows(db.monitors, s, id);
  }

  /** After startup and any lifecycle operations without faults. */
  lemma DatabaseTicks(workers: int, db: Tables, rows: seq<Monitor>, ops: seq<Op>, id: Id)
    requires forall i, j | 0 <= i < j < |rows| :: rows[i].id != rows[j].id
    requires forall i | 0 <= i < |rows| :: Live(db.monitors, rows[i].id) && rows[i] == db.monitors[rows[i].id]
    requires forall id | Live(db.monitors, id) :: exists i | 0 <= i < |rows| :: rows[i].id == id
    requires OwnIds(db.monitors) && forall id | id in db.monitors :: Stored(db.monitors[id]) == db.monitors[id]
    requires forall id | id in db.monitors :: id in db.states
    requires forall op | op in ops :: !op.CheckOp? && FaultFree(op)
    ensures var r := Mirror.RunObserved(db, Mirror.Load(Start(Init(workers)), rows), ops);
      TicksAsItsRow(r.0.monitors, r.1, id)
  {
    Mirror.SchedulerMirrorsDatabase(workers, db, rows, ops);
    var r := Mirror.RunObserved(db, Mirror.Load(Start(Init(workers)), rows), ops);
    MirrorTicks(r.0, r.1, id);
  }

  /** While requests run side by side, for a monitor with nothing outstanding. */
  lemma QuietTicks(v: Reports.Registry, turns: seq<Reports.Turn>, id: Id)
    requires ReportMirror.Synced(v) && Reports.CanTurns(v, turns) && Reports.AlwaysOrderly(v, turns)
    requires forall t | t in turns :: ReportMirror.Serves(t)
    requires ReportMirror.Quiet(Reports.RunTurns(v, turns), id)
    ensures var u := Reports.RunTurns(v, turns); TicksAsItsRow(u.db.monitors, u.scheduler, id)
  {
    ReportMirror.OrderlyMirrors(v, turns);
    var u := Reports.RunTurns(v, turns);
    assert ReportMirror.InStep(u, id);
    TickersFollowRows(u.db.monitors, u.scheduler, id);
  }

  // ---- a disable ----

  /** The row after a disable without faults. */
  lemma DisableClears(db: Tables, id: Id, ctx: Service.Context)
    requires Live(db.monitors, id) && db.monitors[id].enabled && id in db.states && ctx.fails == {}
    ensures var r := Lifecycle(db, ToggleOp(id, false, ctx));
      id in r.0.monitors && !r.0.monitors[id].enabled && !r.0.monitors[id].deleted
  {
    ToggleWritten(db, ToggleOp(id, false, ctx));
  }

  /** The report of a toggle leaves the running flag alone. */
  lemma ReportKeepsFlag(s: State, db: Tables, op: Op, id: Id)
    requires op.ToggleOp? && op.id == id && id in s.entries
    ensures var t := Mirror.Observe(s, Lifecycle(db, op).1);
      id in t.entries ==> (t.entries[id].running <==> s.entries[id].running)
  {
    var r := Lifecycle(db, op).1;
    if r.Notified? && !r.change.kind.Deleted? {
      UpsertInFull(s, r.change.monitor);
    }
  }

  /** The tables and the scheduler after a disable without faults. */
  lemma DisableShows(db: Tables, s: State, id: Id, ctx: Service.Context)
    requires Mirror.Mirrors(db, s) && Live(db.monitors, id) && db.monitors[id].enabled && id in db.states
    requires ctx.fails == {}
    ensures var r := Lifecycle(db, ToggleOp(id, false, ctx));
      var t := Mirror.Observe(s, r.1);
      && Mirror.Mirrors(r.0, t) && id in r.0.monitors && !r.0.monitors[id].enabled && !r.0.monitors[id].deleted
      && id in t.entries && (t.entries[id].running <==> s.entries[id].running)
  {
    DisableClears(db, id, ctx);
    Mirror.MirrorsExactly(db, s, ToggleOp(id, false, ctx));
    ReportKeepsFlag(s, db, ToggleOp(id, false, ctx), id);
  }

  /** After a disable without faults the monitor has no uncancelled ticker, and automatic fires of it are refused. */
  lemma DisableStops(db: Tables, s: State, id: Id, ctx: Service.Context)
    requires Mirror.Mirrors(db, s) && Live(db.monitors, id) && db.monitors[id].enabled && id in db.states
    requires ctx.fails == {}
    ensures var r := Lifecycle(db, ToggleOp(id, false, ctx));
      var t := Mirror.Observe(s, r.1);
      && id in t.entries && (forall k: nat :: !Ticking(t, id, k)) && !FireAccepts(t, id, false)
      && (FireAccepts(t, id, true) <==> !s.entries[id].running)
  {
    var r := Lifecycle(db, ToggleOp(id, false, ctx));
    DisableShows(db, s, id, ctx);
    StoppedIfDisabled(r.0, Mirror.Observe(s, r.1), id);
  }

  lemma StoppedIfDisabled(db: Tables, s: State, id: Id)
    requires Mirror.Mirrors(db, s) && id in db.monitors && !db.monitors[id].enabled
    ensures (forall k: nat :: !Ticking(s, id, k)) && !FireAccepts(s, id, false)
  {
    MirrorTicks(db, s, id);
  }

  /** A created monitor that is disabled and enabled is checked at its interval cut to whole seconds, if that is not
      zero. */
  lemma ReenabledInterval(workers: int, m: Monitor, created: Service.Context, off: Service.Context, on: Service.Context)
    requires m.enabled && m.interval > 0 && m.timeout > 0
    requires created.fails == {} && off.fails == {} && on.fails == {}
    ensures var r := Lifecycle(EMPTY, CreateOp(m, m.id, true, created));
      var q := Lifecycle(r.0, ToggleOp(m.id, false, off));
      var t := Lifecycle(q.0, ToggleOp(m.id, true, on));
      var s := Mirror.Observe(Mirror.Observe(Mirror.Observe(Start(Init(workers)), r.1), q.1), t.1);
      && ((exists k: nat :: Ticking(s, m.id, k)) <==> m.interval >= 1_000_000_000)
      && forall k: nat :: Ticking(s, m.id, k) ==> WholeSeconds(m.interval, s.tickers[k].interval)
  {
    Mirror.DisabledAfterCreation(workers, m, created, off);
    var r := Lifecycle(EMPTY, CreateOp(m, m.id, true, created));
    var q := Lifecycle(r.0, ToggleOp(m.id, false, off));
    EnabledInterval(q.0, Mirror.Observe(Mirror.Observe(Start(Init(workers)), r.1), q.1), m, on);
  }

  lemma EnabledInterval(db: Tables, s: State, m: Monitor, ctx: Service.Context)
    requires Mirror.Mirrors(db, s) && m.id in db.states && ctx.fails == {} && m.interval > 0
    requires m.id in db.monitors && db.monitors[m.id] == Stored(m.(enabled := false, deleted := false))
    ensures var r := Lifecycle(db, ToggleOp(m.id, true, ctx));
      var t := Mirror.Observe(s, r.1);
      && ((exists k: nat :: Ticking(t, m.id, k)) <==> m.interval >= 1_000_000_000)
      && forall k: nat :: Ticking(t, m.id, k) ==> WholeSeconds(m.interval, t.tickers[k].interval)
  {
    var r := Lifecycle(db, ToggleOp(m.id, true, ctx));
    var t := Mirror.Observe(s, r.1);
    Mirror.EnabledAgain(db, s, m, ctx);
    MirrorTicks(r.0, t, m.id);
    assert t.entries[m.id].monitor == db.monitors[m.id].(enabled := true);
  }
}
