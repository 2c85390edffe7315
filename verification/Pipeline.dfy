/** The check pipeline: the source's straight-line `run` over the repositories. */
module Pipeline {
  import opened Common
  import opened Monitors
  import opened Store
  import opened CheckRun
  import opened Repositories

  class Pipeline {
    const db: Database
    var outbox: seq<NotifyJob>

    constructor (db: Database)
      ensures this.db == db && outbox == []
    {
      this.db := db;
      outbox := [];
    }

    ghost function View(): Tables
      reads this, db
    {
      db.View(outbox)
    }

    method EnqueueNotification(p: Probe, job: NotifyJob)
      modifies `outbox
      ensures outbox == if p.wired && p.wanted && p.gate != Some(false) then old(outbox) + [job] else old(outbox)
    {
      if !p.wired || !p.wanted { return; }
      if p.gate.Some? && !p.gate.value { return; }
      outbox := outbox + [job];
    }

    /** The events, the incident and the notification of a transition that opens an incident. */
    method Open(monitor: Id, p: Probe, ghost c: Check) returns (ok: bool)
      requires c.monitor == monitor && c.probe == p && c.stage.Announcing?
      modifies this, db
      ensures var end := Then(Then((old(View()), c)));
        View() == end.0 && end.1 == c.(stage := if ok then Saving(c.stage.status) else Finished(false))
    {
      ghost var x1 := Then((View(), c));
      ok := db.InsertEvent(Event(p.incidentEventId, IncidentOpened, monitor, p.at), InsertOpened in p.fails);
      assert View() == x1.0;
      if !ok { return; }
      ghost var x2 := Then(x1);
      ok := db.OpenIncident(NewIncident(monitor, p), OpenIncident in p.fails);
      if ok { EnqueueNotification(p, NotifyJob(MonitorDown, monitor, p.incidentId, p.incidentEventId)); }
      assert View() == x2.0;
    }

    /** The lookup, the event, the update and the notification of a transition that resolves one. */
    method Resolve(monitor: Id, p: Probe, ghost c: Check) returns (ok: bool)
      requires c.monitor == monitor && c.probe == p && c.stage.Finding?
      modifies this, db
      ensures var end := Then(Then(Then((old(View()), c))));
        View() == end.0 && end.1 == c.(stage := if ok then Saving(c.stage.status) else Finished(false))
    {
      ghost var x1 := Then((View(), c));
      var open := db.FindOpenByMonitor(monitor, FindOpenIncident in p.fails);
      assert View() == x1.0;
      if open == None { return false; }
      ok := Conclude(monitor, p, open.value.id, x1.1);
    }

    method Conclude(monitor: Id, p: Probe, found: Id, ghost c: Check) returns (ok: bool)
      requires c.monitor == monitor && c.probe == p && c.stage.Concluding? && c.stage.found == found
      modifies this, db
      ensures var end := Then(Then((old(View()), c)));
        View() == end.0 && end.1 == c.(stage := if ok then Saving(c.stage.status) else Finished(false))
    {
      ghost var x1 := Then((View(), c));
      ok := db.InsertEvent(Event(p.incidentEventId, IncidentResolved, monitor, p.at), InsertResolved in p.fails);
      assert View() == x1.0;
      if !ok { return; }
      ghost var x2 := Then(x1);
      ok := db.ResolveIncident(found, p.at, p.incidentEventId, ResolveIncident in p.fails);
      if ok { EnqueueNotification(p, NotifyJob(MonitorRecovered, monitor, found, p.incidentEventId)); }
      assert View() == x2.0;
    }

    method Run(monitor: Id, p: Probe)
      modifies this, db
      ensures View() == RunCheck(old(View()), monitor, p)
    {
      ghost var x := Then((View(), Begin(monitor, p)));
      assert RunCheck(View(), monitor, p) == Complete(x);
      var status := db.GetState(monitor, GetState in p.fails);
      if status == None { return; }
      Persist(monitor, p, status.value);
    }

    /** The check row and, if the state changes, the event that says so. */
    method Record(monitor: Id, p: Probe, t: Transition, status: Status, ghost c: Check) returns (ok: bool)
      requires c == Check(monitor, p, Recording(status)) && t == TransitionOf(status, p)
      modifies this, db
      ensures ok ==> Complete((old(View()), c)) == Complete((View(), c.(stage := AfterChange(status, p))))
      ensures !ok ==> Complete((old(View()), c)) == View()
    {
      ghost var x0 := (View(), c);
      ghost var x1 := Then(x0);
      ok := db.InsertCheck(CheckRow(p.checkId, monitor, p.success, t.to, p.at), InsertCheck in p.fails);
      assert View() == x1.0 && Complete(x0) == Complete(x1);
      if !ok || !t.emitStateChange { return; }
      ok := db.InsertEvent(Event(p.changeId, StateChanged(t.from, t.to), monitor, p.at), InsertChange in p.fails);
      assert Complete(x1) == Complete(Then(x1)) && View() == Then(x1).0;
    }

    /** The rest of `run` once the state row has been read. */
    method Persist(monitor: Id, p: Probe, status: Status)
      modifies this, db
      ensures View() == Complete((old(View()), Check(monitor, p, Recording(status))))
    {
      var t := NextState(status.state, if p.success then Success else Failure);
      var ok := Record(monitor, p, t, status, Check(monitor, p, Recording(status)));
      if !ok { return; }
      ok := Effects(monitor, p, t, status, Check(monitor, p, AfterChange(status, p)));
      if !ok { return; }
      ok := db.UpsertState(monitor, NextStatus(status, p), UpsertState in p.fails);
    }

    /** The part of `run` between the state-change event and the final upsert. */
    method Effects(monitor: Id, p: Probe, t: Transition, status: Status, ghost c: Check) returns (ok: bool)
      requires c.monitor == monitor && c.probe == p && c.stage == AfterChange(status, p) && t == TransitionOf(status, p)
      modifies this, db
      ensures ok ==> Complete((old(View()), c)) == Complete((View(), c.(stage := Saving(status))))
      ensures !ok ==> Complete((old(View()), c)) == View()
    {
      ok := true;
      ghost var x0 := (View(), c);
      if t.openIncident {
        ok := Open(monitor, p, c);
        assert Complete(x0) == Complete(Then(x0)) == Complete(Then(Then(x0)));
      }
      if t.resolveIncident {
        ok := Resolve(monitor, p, c);
        assert Complete(x0) == Complete(Then(x0)) == Complete(Then(Then(x0))) == Complete(Then(Then(Then(x0))));
      }
    }
  }
}
