/** The SQLite repositories as an object whose methods are the statements run on its tables. A `fail`
    argument says that the database returns an error for this call and changes nothing. */
module Repositories {
  import opened Common
  import opened Monitors
  import opened Store
  import opened Text

  class Database {
    var monitors: map<Id, Monitor>
    var states: map<Id, Status>
    var checks: seq<CheckRow>
    var events: seq<Event>
    var incidents: seq<Incident>

    constructor ()
      ensures monitors == map[] && states == map[] && checks == [] && events == [] && incidents == []
    {
      monitors, states, checks, events, incidents := map[], map[], [], [], [];
    }

    ghost function View(outbox: seq<NotifyJob>): Tables
      reads this
    {
      Tables(monitors, states, checks, events, incidents, outbox)
    }

    // ---- monitors ----

    method GetMonitor(id: Id, fail: bool) returns (monitor: Option<Monitor>)
      ensures monitor == if fail || id !in monitors || monitors[id].deleted then None else Some(monitors[id])
    {
      monitor := if fail || !Live(monitors, id) then None else Some(monitors[id]);
    }

    method InsertMonitor(m: Monitor, fail: bool) returns (ok: bool)
      modifies `monitors
      ensures ok == (!fail && m.id !in old(monitors))
      ensures monitors == if ok then old(monitors)[m.id := Stored(m)] else old(monitors)
    {
      ok := !fail && m.id !in monitors;
      if ok { monitors := monitors[m.id := Stored(m)]; }
    }

    method UpdateMonitor(m: Monitor, fail: bool) returns (ok: bool)
      modifies `monitors
      ensures ok == (!fail && Live(old(monitors), m.id))
      ensures monitors == if ok then old(monitors)[m.id := Stored(m).(deleted := false)] else old(monitors)
    {
      ok := !fail && Live(monitors, m.id);
      if ok { monitors := monitors[m.id := Stored(m).(deleted := false)]; }
    }

    method SoftDelete(id: Id, fail: bool) returns (ok: bool)
      modifies `monitors
      ensures ok == (!fail && Live(old(monitors), id))
      ensures monitors == if ok then old(monitors)[id := old(monitors)[id].(deleted := true)] else old(monitors)
    {
      ok := !fail && Live(monitors, id);
      if ok { monitors := monitors[id := monitors[id].(deleted := true)]; }
    }

    // ---- states, checks, events, incidents ----

    method GetState(monitor: Id, fail: bool) returns (status: Option<Status>)
      ensures status == if fail || monitor !in states then None else Some(states[monitor])
    {
      status := if fail || monitor !in states then None else Some(states[monitor]);
    }

    method UpsertState(monitor: Id, status: Status, fail: bool) returns (ok: bool)
      modifies `states
      ensures ok == !fail && states == if fail then old(states) else old(states)[monitor := status]
    {
      ok := !fail;
      if ok { states := states[monitor := status]; }
    }

    method InsertCheck(row: CheckRow, fail: bool) returns (ok: bool)
      modifies `checks
      ensures ok == !fail && checks == if fail then old(checks) else old(checks) + [row]
    {
      ok := !fail;
      if ok { checks := checks + [row]; }
    }

    method InsertEvent(event: Event, fail: bool) returns (ok: bool)
      modifies `events
      ensures ok == !fail && events == if fail then old(events) else old(events) + [event]
    {
      ok := !fail;
      if ok { events := events + [event]; }
    }

    method OpenIncident(incident: Incident, fail: bool) returns (ok: bool)
      modifies `incidents
      ensures ok == !fail && incidents == if fail then old(incidents) else old(incidents) + [incident]
    {
      ok := !fail;
      if ok { incidents := incidents + [incident]; }
    }

    method FindOpenByMonitor(monitor: Id, fail: bool) returns (incident: Option<Incident>)
      ensures var r := FindOpen(incidents, monitor);
        incident == if fail || r == None then None else Some(incidents[r.value])
      ensures incident == None <==> fail || forall i | i in incidents :: i.monitor == monitor ==> i.resolvedAt.Some?
      ensures incident.Some? ==>
        && incident.value in incidents && incident.value.monitor == monitor && incident.value.resolvedAt == None
        && forall i | i in incidents && i.monitor == monitor && i.resolvedAt == None ::
             !TextLess(incident.value.startedAt, i.startedAt)
    {
      FindOpenMeans(incidents, monitor);
      var r := FindOpen(incidents, monitor);
      incident := if fail || r == None then None else Some(incidents[r.value]);
    }

    method ResolveIncident(id: Id, at: Stamp, event: Id, fail: bool) returns (ok: bool)
      modifies `incidents
      ensures ok == (!fail && Resolvable(old(incidents), id))
      ensures incidents == if ok then ResolveRows(old(incidents), id, at, event) else old(incidents)
    {
      ok := !fail && exists i | 0 <= i < |incidents| :: incidents[i].id == id && incidents[i].resolvedAt == None;
      if ok { incidents := ResolveRows(incidents, id, at, event); }
    }
  }
}
